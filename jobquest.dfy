/**
 * The job-quest game contract: registered players collect points for
 * rejections (10 each), LinkedIn connections (5 each) and events attended
 * (50 each), and their level rises by one per 100 points.
 */
module JobQuest {
  import opened Common

  datatype Player = Player(points: nat, rejections: nat, connections: nat, events: nat)

  /** The panics of the contract: a second registration, and any call for an unknown player. */
  datatype GameError = AlreadyRegistered | NotRegistered

  /** The three scoring calls. */
  datatype Action = Rejection | Connections(count: nat) | Event

  const RejectionPoints: nat := 10
  const ConnectionPoints: nat := 5
  const EventPoints: nat := 50
  const PointsPerLevel: nat := 100

  /** `Player::level`: one level per 100 points, starting from level 1. */
  function Level(p: Player): (l: nat)
    ensures l >= 1
    ensures (l - 1) * PointsPerLevel <= p.points < l * PointsPerLevel
  {
    p.points / PointsPerLevel + 1
  }

  /** More points never mean a lower level. */
  lemma LevelMonotone(p: Player, q: Player)
    requires p.points <= q.points
    ensures Level(p) <= Level(q)
  {
  }

  /** The points a player's counters are worth. */
  function Worth(p: Player): nat
  {
    RejectionPoints * p.rejections + ConnectionPoints * p.connections + EventPoints * p.events
  }

  /** A player's points are exactly what the counters earned. */
  predicate Balanced(p: Player)
  {
    p.points == Worth(p)
  }

  /** The counters a new player starts with. */
  const NewPlayer := Player(0, 0, 0, 0)

  /** The update each scoring call makes to the player's record. */
  function Apply(p: Player, a: Action): (q: Player)
    ensures Worth(q) == Worth(p) + (q.points - p.points)
    ensures q.points >= p.points
  {
    match a
    case Rejection => p.(points := p.points + RejectionPoints, rejections := p.rejections + 1)
    case Connections(count) => p.(points := p.points + count * ConnectionPoints, connections := p.connections + count)
    case Event => p.(points := p.points + EventPoints, events := p.events + 1)
  }

  /** Every scoring call keeps the points equal to what the counters earned, and never lowers the level. */
  lemma ApplyKeepsBalance(p: Player, a: Action)
    requires Balanced(p)
    ensures Balanced(Apply(p, a))
    ensures Level(p) <= Level(Apply(p, a))
  {
    LevelMonotone(p, Apply(p, a));
  }

  /** A run of scoring calls on a record. */
  function ApplyAll(p: Player, actions: seq<Action>): Player
    decreases |actions|
  {
    if actions == [] then p else Apply(ApplyAll(p, actions[..|actions| - 1]), actions[|actions| - 1])
  }

  /**
   * Whatever calls a registered player makes, the points are 10 per
   * rejection, 5 per connection and 50 per event logged.
   */
  lemma {:induction false} ApplyAllBalanced(actions: seq<Action>)
    ensures Balanced(ApplyAll(NewPlayer, actions))
    decreases |actions|
  {
    if actions != [] {
      ApplyAllBalanced(actions[..|actions| - 1]);
      ApplyKeepsBalance(ApplyAll(NewPlayer, actions[..|actions| - 1]), actions[|actions| - 1]);
    }
  }

  class JobQuestGame {
    /** The `USERS` map; an absent map behaves as an empty one. */
    var users: map<Address, Player>

    ghost predicate Valid()
      reads this
    {
      forall a :: a in users ==> Balanced(users[a])
    }

    constructor ()
      ensures Valid()
      ensures users == map[]
    {
      users := map[];
    }

    /** `register`: aborts for a known player; otherwise stores and returns a fresh record. */
    method Register(player: Address) returns (r: Result<Player, GameError>)
      requires Valid()
      modifies this
      ensures Valid()
      ensures r.Failure? <==> player in old(users)
      ensures r.Failure? ==> r.error == AlreadyRegistered && unchanged(this)
      ensures r.Success? ==> r.value == NewPlayer && users == old(users)[player := NewPlayer]
    {
      if player in users {
        return Failure(AlreadyRegistered);
      }
      var newPlayer := Player(0, 0, 0, 0);
      users := users[player := newPlayer];
      r := Success(newPlayer);
    }

    /** `rejection`: 10 points and one more rejection. */
    method LogRejection(player: Address) returns (r: Result<Player, GameError>)
      requires Valid()
      modifies this
      ensures Valid()
      ensures r.Failure? <==> player !in old(users)
      ensures r.Failure? ==> r.error == NotRegistered && unchanged(this)
      ensures r.Success? ==> r.value == Apply(old(users)[player], Rejection) && users == old(users)[player := r.value]
    {
      if player !in users {
        return Failure(NotRegistered);
      }
      var stats := users[player];
      ApplyKeepsBalance(stats, Rejection);
      stats := stats.(points := stats.points + 10);
      stats := stats.(rejections := stats.rejections + 1);
      users := users[player := stats];
      r := Success(stats);
    }

    /** `connections`: 5 points per connection, and the count added to the connections. */
    method LogConnections(player: Address, count: nat) returns (r: Result<Player, GameError>)
      requires Valid()
      modifies this
      ensures Valid()
      ensures r.Failure? <==> player !in old(users)
      ensures r.Failure? ==> r.error == NotRegistered && unchanged(this)
      ensures r.Success? ==> r.value == Apply(old(users)[player], Connections(count)) && users == old(users)[player := r.value]
    {
      if player !in users {
        return Failure(NotRegistered);
      }
      var stats := users[player];
      ApplyKeepsBalance(stats, Connections(count));
      stats := stats.(points := stats.points + count * 5);
      stats := stats.(connections := stats.connections + count);
      users := users[player := stats];
      r := Success(stats);
    }

    /** `event`: 50 points and one more event. */
    method LogEvent(player: Address) returns (r: Result<Player, GameError>)
      requires Valid()
      modifies this
      ensures Valid()
      ensures r.Failure? <==> player !in old(users)
      ensures r.Failure? ==> r.error == NotRegistered && unchanged(this)
      ensures r.Success? ==> r.value == Apply(old(users)[player], Event) && users == old(users)[player := r.value]
    {
      if player !in users {
        return Failure(NotRegistered);
      }
      var stats := users[player];
      ApplyKeepsBalance(stats, Event);
      stats := stats.(points := stats.points + 50);
      stats := stats.(events := stats.events + 1);
      users := users[player := stats];
      r := Success(stats);
    }

    /** `stats`: aborts for an unknown player. */
    function Stats(player: Address): (r: Result<Player, GameError>)
      reads this
      ensures r.Success? <==> player in users
      ensures r.Failure? ==> r.error == NotRegistered
      ensures r.Success? ==> r.value == users[player]
      ensures Valid() && r.Success? ==> Balanced(r.value)
    {
      if player in users then Success(users[player]) else Failure(NotRegistered)
    }
  }
}
