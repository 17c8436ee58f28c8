/**
 * The public matchmaking queue: a FIFO of users without repeated ids, with
 * cancellation and automatic pairing of the two oldest users into a new
 * public lobby. Sent messages and created lobbies are recorded as outputs.
 */
module Matchmaking {
  import opened Wrappers
  import opened Model

  const RequiredPlayers: nat := 2
  const MatchFoundDestination: string := "/queue/match-found"
  const AlreadySearching: string := "STATUS: Ya estás buscando partida."
  const SearchCancelled: string := "STATUS: Búsqueda de partida cancelada."
  const MatchFoundPrefix: string := "MATCH_FOUND:"

  /** A message sent to one user's private destination. */
  datatype Notice = Notice(username: string, destination: string, payload: string)

  /** A lobby saved by the pairing: its id, status, visibility and the users whose players joined it, in order. */
  datatype MatchedLobby = MatchedLobby(id: Uuid, status: GameStatus, isPublic: bool, users: seq<User>)

  predicate Queued(q: seq<User>, userId: int) {
    exists i :: 0 <= i < |q| && q[i].id == userId
  }

  predicate NoRepeatedIds(q: seq<User>) {
    forall i, j :: 0 <= i < j < |q| ==> q[i].id != q[j].id
  }

  /** The queue after removeIf: every user with that id dropped, the others kept in order. */
  function WithoutUser(q: seq<User>, userId: int): (r: seq<User>)
    ensures |r| <= |q|
    ensures forall u :: u in r <==> u in q && u.id != userId
    ensures !Queued(q, userId) ==> r == q
  {
    if q == [] then []
    else if q[0].id == userId then WithoutUser(q[1..], userId)
    else [q[0]] + WithoutUser(q[1..], userId)
  }

  /** removeIf on one user: dropped exactly when it has that id. */
  lemma WithoutUserOfOne(u: User, userId: int)
    ensures WithoutUser([u], userId) == if u.id == userId then [] else [u]
  {
    assert [u][1..] == [];
  }

  /** removeIf works user by user: the survivors of a + b are those of a followed by those of b, in order. */
  lemma {:induction false} WithoutUserOfConcat(a: seq<User>, b: seq<User>, userId: int)
    ensures WithoutUser(a + b, userId) == WithoutUser(a, userId) + WithoutUser(b, userId)
    decreases |a|
  {
    if a == [] {
      assert a + b == b;
    } else {
      assert (a + b)[0] == a[0];
      assert (a + b)[1..] == a[1..] + b;
      WithoutUserOfConcat(a[1..], b, userId);
      if a[0].id != userId {
        assert [a[0]] + (WithoutUser(a[1..], userId) + WithoutUser(b, userId))
            == ([a[0]] + WithoutUser(a[1..], userId)) + WithoutUser(b, userId);
      }
    }
  }

  lemma NoRepeatedIdsInTail(q: seq<User>)
    requires NoRepeatedIds(q) && q != []
    ensures NoRepeatedIds(q[1..])
    ensures !Queued(q[1..], q[0].id)
  {
    forall i, j | 0 <= i < j < |q[1..]|
      ensures q[1..][i].id != q[1..][j].id
    {
      assert q[1..][i] == q[i + 1] && q[1..][j] == q[j + 1];
    }
    forall i | 0 <= i < |q[1..]|
      ensures q[1..][i].id != q[0].id
    {
      assert q[1..][i] == q[i + 1];
    }
  }

  lemma WithoutHead(q: seq<User>)
    requires q != [] && !Queued(q[1..], q[0].id)
    ensures WithoutUser(q, q[0].id) == q[..0] + q[1..]
  {
    assert q[..0] + q[1..] == q[1..];
  }

  /** Cutting out position k > 0 is keeping the head and cutting out position k - 1 of the tail. */
  lemma CutAfterHead<T>(q: seq<T>, k: int)
    requires 0 < k < |q|
    ensures q[..k] + q[k + 1..] == [q[0]] + (q[1..][..k - 1] + q[1..][k..])
  {
    assert q[..k] == [q[0]] + q[1..][..k - 1];
    assert q[k + 1..] == q[1..][k..];
  }

  /** In a queue without repeated ids, cancelling the user at position k cuts out exactly that entry. */
  lemma {:induction false} WithoutQueuedUser(q: seq<User>, k: int)
    requires NoRepeatedIds(q) && 0 <= k < |q|
    ensures WithoutUser(q, q[k].id) == q[..k] + q[k + 1..]
  {
    NoRepeatedIdsInTail(q);
    if k == 0 {
      WithoutHead(q);
    } else {
      assert q[0].id != q[k].id;
      assert q[1..][k - 1] == q[k];
      WithoutQueuedUser(q[1..], k - 1);
      CutAfterHead(q, k);
    }
  }

  /** Cancelling keeps the queue free of repeated ids. */
  lemma {:induction false} WithoutUserKeepsNoRepeatedIds(q: seq<User>, userId: int)
    requires NoRepeatedIds(q)
    ensures NoRepeatedIds(WithoutUser(q, userId))
  {
    if q != [] {
      NoRepeatedIdsInTail(q);
      WithoutUserKeepsNoRepeatedIds(q[1..], userId);
      if q[0].id != userId {
        var rest := WithoutUser(q[1..], userId);
        forall i | 0 <= i < |rest|
          ensures rest[i].id != q[0].id
        {
          assert rest[i] in rest;
          var j :| 0 <= j < |q[1..]| && q[1..][j] == rest[i];
          assert q[j + 1] == rest[i];
        }
      }
    }
  }

  /** Adding to the queue keeps it free of repeated ids. */
  lemma AppendNewUserKeepsNoRepeatedIds(q: seq<User>, user: User)
    requires NoRepeatedIds(q) && !Queued(q, user.id)
    ensures NoRepeatedIds(q + [user])
  {
    forall i, j | 0 <= i < j < |q + [user]|
      ensures (q + [user])[i].id != (q + [user])[j].id
    {
      if j == |q| {
        assert (q + [user])[i] == q[i];
      } else {
        assert (q + [user])[i] == q[i] && (q + [user])[j] == q[j];
      }
    }
  }

  /** The outcome of the two polls: the queue left behind and the pair polled, if both polls yielded a user. */
  datatype Drained = Drained(rest: seq<User>, pair: Option<(User, User)>)

  /**
   * The two polls of processMatchmakingQueue: when either yields nothing, a
   * user that was polled goes back at the tail and no pair is formed.
   */
  function Drain(q: seq<User>): (d: Drained)
    ensures |q| >= RequiredPlayers ==> d == Drained(q[2..], Some((q[0], q[1])))
    ensures |q| < RequiredPlayers ==> d == Drained(q, None)
  {
    var user1 := if q == [] then None else Some(q[0]);
    var afterFirst := if q == [] then q else q[1..];
    var user2 := if afterFirst == [] then None else Some(afterFirst[0]);
    var afterSecond := if afterFirst == [] then afterFirst else afterFirst[1..];
    if user1.None? || user2.None? then
      Drained(if user1.Some? then afterSecond + [user1.value] else afterSecond, None)
    else
      Drained(afterSecond, Some((user1.value, user2.value)))
  }

  class MatchmakingService {
    var queue: seq<User>
    /** Messages sent through the messaging template, oldest first. */
    var notices: seq<Notice>
    /** Lobbies saved by the pairing, oldest first. */
    var lobbies: seq<MatchedLobby>

    /** Sequential use keeps ids unrepeated and leaves at most one user waiting. */
    ghost predicate Valid()
      reads this
    {
      NoRepeatedIds(queue) && |queue| < RequiredPlayers
    }

    constructor ()
      ensures queue == [] && notices == [] && lobbies == [] && Valid()
    {
      queue := [];
      notices := [];
      lobbies := [];
    }

    /**
     * addToPublicQueue: a user whose id is queued only gets a status message;
     * a new one goes to the tail, and once two are waiting the two oldest are
     * paired into the new lobby `freshLobbyId` and both are told its id.
     */
    method AddToPublicQueue(user: User, freshLobbyId: Uuid)
      requires Valid()
      modifies this
      ensures Valid()
      ensures Queued(old(queue), user.id) ==>
        queue == old(queue) && lobbies == old(lobbies)
        && notices == old(notices) + [Notice(user.username, MatchFoundDestination, AlreadySearching)]
      ensures !Queued(old(queue), user.id) && old(queue) == [] ==>
        queue == [user] && lobbies == old(lobbies) && notices == old(notices)
      ensures !Queued(old(queue), user.id) && |old(queue)| == 1 ==>
        var waiting := old(queue)[0];
        queue == []
        && lobbies == old(lobbies) + [MatchedLobby(freshLobbyId, WAITING, true, [waiting, user])]
        && notices == old(notices) + [Notice(waiting.username, MatchFoundDestination, MatchFoundPrefix + freshLobbyId),
                                      Notice(user.username, MatchFoundDestination, MatchFoundPrefix + freshLobbyId)]
    {
      if exists i :: 0 <= i < |queue| && queue[i].id == user.id {
        notices := notices + [Notice(user.username, MatchFoundDestination, AlreadySearching)];
        return;
      }
      AppendNewUserKeepsNoRepeatedIds(queue, user);
      queue := queue + [user];
      if |queue| >= RequiredPlayers {
        ProcessMatchmakingQueue(freshLobbyId);
      }
    }

    /**
     * processMatchmakingQueue: with two or more users waiting, the two oldest
     * leave the queue in FIFO order, are placed in one new public WAITING
     * lobby, and both receive the same payload naming it.
     */
    method ProcessMatchmakingQueue(freshLobbyId: Uuid)
      requires NoRepeatedIds(queue)
      modifies this
      ensures NoRepeatedIds(queue)
      ensures |old(queue)| < RequiredPlayers ==>
        queue == old(queue) && lobbies == old(lobbies) && notices == old(notices)
      ensures |old(queue)| >= RequiredPlayers ==>
        var user1, user2 := old(queue)[0], old(queue)[1];
        queue == old(queue)[2..]
        && lobbies == old(lobbies) + [MatchedLobby(freshLobbyId, WAITING, true, [user1, user2])]
        && notices == old(notices) + [Notice(user1.username, MatchFoundDestination, MatchFoundPrefix + freshLobbyId),
                                      Notice(user2.username, MatchFoundDestination, MatchFoundPrefix + freshLobbyId)]
    {
      if |queue| < RequiredPlayers {
        return;
      }
      var drained := Drain(queue);
      queue := drained.rest;
      if drained.pair.Some? {
        var (user1, user2) := drained.pair.value;
        lobbies := lobbies + [MatchedLobby(freshLobbyId, WAITING, true, [user1, user2])];
        var payload := MatchFoundPrefix + freshLobbyId;
        notices := notices + [Notice(user1.username, MatchFoundDestination, payload)];
        notices := notices + [Notice(user2.username, MatchFoundDestination, payload)];
      }
    }

    /** removeFromPublicQueue: drops every entry with the user's id; only an actual removal is announced. */
    method RemoveFromPublicQueue(user: User)
      requires Valid()
      modifies this`queue, this`notices
      ensures Valid()
      ensures queue == WithoutUser(old(queue), user.id)
      ensures Queued(old(queue), user.id) ==>
        notices == old(notices) + [Notice(user.username, MatchFoundDestination, SearchCancelled)]
      ensures !Queued(old(queue), user.id) ==> queue == old(queue) && notices == old(notices)
    {
      var removed := Queued(queue, user.id);
      WithoutUserKeepsNoRepeatedIds(queue, user.id);
      queue := WithoutUser(queue, user.id);
      if removed {
        notices := notices + [Notice(user.username, MatchFoundDestination, SearchCancelled)];
      }
    }
  }
}
