/** The grid world: an agent moves on a width x height grid holding one
    obstacle and one goal. Each step costs -1, bumping into a wall or the
    obstacle costs -10 and leaves the agent in place, reaching the goal
    earns 10 and ends the episode. */
module Grid {
  import opened World

  datatype Point = Point(x: int, y: int)

  /** The four moves, in the order of their codes 0..3. */
  datatype Action = Up | Right | Down | Left

  datatype Option<T> = None | Some(value: T)

  function ActionCode(a: Action): nat
  {
    match a
    case Up => 0
    case Right => 1
    case Down => 2
    case Left => 3
  }

  /** The move an action code stands for; codes past Left stand for none. */
  function ActionOf(code: nat): Option<Action>
  {
    if code == 0 then Some(Up)
    else if code == 1 then Some(Right)
    else if code == 2 then Some(Down)
    else if code == 3 then Some(Left)
    else None
  }

  /** Codes and moves correspond one to one; every other code is no move. */
  lemma ActionCodeRoundTrip(a: Action, code: nat)
    ensures ActionOf(ActionCode(a)) == Some(a)
    ensures ActionOf(code) == Some(a) ==> ActionCode(a) == code
    ensures ActionOf(code) == None <==> code >= 4
  {
  }

  /** The position an action code aims at: one cell up (y + 1), right
      (x + 1), down (y - 1) or left (x - 1); codes past Left stay. */
  function Candidate(p: Point, code: nat): (q: Point)
    ensures code >= 4 ==> q == p
    ensures code < 4 ==> Distance(p, q) == 1
  {
    match ActionOf(code)
    case Some(Up) => Point(p.x, p.y + 1)
    case Some(Right) => Point(p.x + 1, p.y)
    case Some(Down) => Point(p.x, p.y - 1)
    case Some(Left) => Point(p.x - 1, p.y)
    case None => p
  }

  function Abs(n: int): nat
  {
    if n < 0 then -n else n
  }

  /** Manhattan distance. */
  function Distance(p: Point, q: Point): nat
  {
    Abs(p.x - q.x) + Abs(p.y - q.y)
  }

  /** The fixed layout of a grid world. */
  datatype Layout = Layout(width: nat, height: nat, obstacle: Point, goal: Point)

  predicate InBounds(l: Layout, p: Point)
  {
    0 <= p.x < l.width && 0 <= p.y < l.height
  }

  /** What a step leaves behind: the new position, the end-of-episode flag
      and the reward. */
  datatype Outcome = Outcome(pos: Point, finished: bool, reward: real)

  /** step(): the goal test comes first; a move off the grid or onto the
      obstacle is refused; any other move is taken. */
  function StepRule(l: Layout, pos: Point, code: nat): Outcome
  {
    var c := Candidate(pos, code);
    if c == l.goal then Outcome(c, true, 10.0)
    else if !InBounds(l, c) || c == l.obstacle then Outcome(pos, false, -10.0)
    else Outcome(c, false, -1.0)
  }

  /** The three outcomes of a step, told apart by the reward: 10 exactly
      when the episode ends at the goal, -10 exactly when the agent is
      left in place off the goal, -1 exactly when it moved to a free cell. */
  lemma StepOutcomes(l: Layout, pos: Point, code: nat)
    ensures var o := StepRule(l, pos, code);
      && (o.reward == 10.0 <==> o.finished)
      && (o.finished ==> o.pos == l.goal)
      && (o.reward == -10.0 <==> (Candidate(pos, code) != l.goal && o.pos == pos
                                  && (!InBounds(l, Candidate(pos, code)) || Candidate(pos, code) == l.obstacle)))
      && (o.reward == -1.0 <==> (!o.finished && o.pos == Candidate(pos, code) && InBounds(l, o.pos)
                                 && o.pos != l.obstacle && o.pos != l.goal))
      && (o.reward == 10.0 || o.reward == -10.0 || o.reward == -1.0)
      && (o.pos == pos || o.pos == Candidate(pos, code))
  {
  }

  /** Off the goal, a step finishes exactly when it ends on the goal. */
  lemma FinishedIffAtGoal(l: Layout, pos: Point, code: nat)
    requires pos != l.goal
    ensures StepRule(l, pos, code).finished <==> StepRule(l, pos, code).pos == l.goal
  {
  }

  /** At the goal, a move that is refused leaves the agent on the goal
      without finishing: the equivalence above needs pos != goal. */
  lemma BlockedAtGoal(l: Layout, code: nat)
    requires code < 4
    requires !InBounds(l, Candidate(l.goal, code)) || Candidate(l.goal, code) == l.obstacle
    ensures StepRule(l, l.goal, code).pos == l.goal
    ensures !StepRule(l, l.goal, code).finished
  {
  }

  /** The cells an agent may be in: the goal, or a free cell of the grid. */
  predicate Safe(l: Layout, p: Point)
  {
    p == l.goal || (InBounds(l, p) && p != l.obstacle)
  }

  /** From a safe cell every step leads to a safe cell, and moves by at
      most one cell. */
  lemma StepKeepsSafe(l: Layout, pos: Point, code: nat)
    requires Safe(l, pos)
    ensures Safe(l, StepRule(l, pos, code).pos)
    ensures Distance(pos, StepRule(l, pos, code).pos) <= 1
  {
  }

  /** encodeState(): the two coordinates as floats, x first. */
  function EncodeState(p: Point): (state: seq<real>)
    ensures |state| == 2
  {
    [p.x as real, p.y as real]
  }

  /** Reading the coordinates back from an encoded state. */
  function DecodeState(state: seq<real>): Option<Point>
  {
    if |state| == 2 then Some(Point(state[0].Floor, state[1].Floor)) else None
  }

  /** Encoding loses nothing: distinct positions give distinct states. */
  lemma EncodeRoundTrip(p: Point)
    ensures DecodeState(EncodeState(p)) == Some(p)
  {
  }

  /** A grid world: an abstract world with four actions, a layout, an
      initial position and the current position. */
  class GridWorld {
    const world: AbstractWorld
    const layout: Layout
    const stochastic: bool
    var initial: Point
    var currentPos: Point

    constructor (width: nat, height: nat, initial: Point, obstacle: Point, goal: Point,
                 stochastic: bool)
      ensures fresh(world) && world.numActions == 4
      ensures world.minState == [] && world.maxState == []
      ensures layout == Layout(width, height, obstacle, goal) && this.stochastic == stochastic
      ensures this.initial == initial && currentPos == initial
    {
      world := new AbstractWorld(4);
      layout := Layout(width, height, obstacle, goal);
      this.stochastic := stochastic;
      this.initial := initial;
      currentPos := initial;
    }

    /** initialState(): the encoded initial position. */
    method InitialState() returns (state: seq<real>)
      ensures state == [initial.x as real, initial.y as real]
      ensures DecodeState(state) == Some(initial)
    {
      state := EncodeState(initial);
      EncodeRoundTrip(initial);
    }

    /** reset(): a stochastic world first moves its initial position to
        (rndX mod width, rndY mod height), rndX and rndY standing for two
        draws of std::rand(); every world then returns to the initial
        position. */
    method Reset(rndX: nat, rndY: nat)
      requires stochastic ==> layout.width > 0 && layout.height > 0
      modifies this`initial, this`currentPos
      ensures initial == if stochastic then Point(rndX % layout.width, rndY % layout.height)
                         else old(initial)
      ensures currentPos == initial
      ensures stochastic ==> InBounds(layout, initial)
    {
      if stochastic {
        initial := Point(rndX % layout.width, rndY % layout.height);
      }
      currentPos := initial;
    }

    /** step(action): move as StepRule says and report the encoded new
        position. */
    method Step(action: nat) returns (finished: bool, reward: real, state: seq<real>)
      modifies this`currentPos
      ensures var o := StepRule(layout, old(currentPos), action);
        currentPos == o.pos && finished == o.finished && reward == o.reward
      ensures state == [currentPos.x as real, currentPos.y as real]
      ensures DecodeState(state) == Some(currentPos)
      ensures Safe(layout, old(currentPos)) ==> Safe(layout, currentPos)
    {
      var pos := Candidate(currentPos, action);

      if pos == layout.goal {
        currentPos := pos;
        finished := true;
        reward := 10.0;
      } else if pos.x < 0 || pos.y < 0 || pos.x >= layout.width || pos.y >= layout.height
                || pos == layout.obstacle {
        finished := false;
        reward := -10.0;
      } else {
        currentPos := pos;
        finished := false;
        reward := -1.0;
      }

      state := EncodeState(currentPos);
      EncodeRoundTrip(currentPos);
      if Safe(layout, old(currentPos)) {
        StepKeepsSafe(layout, old(currentPos), action);
      }
    }
  }
}
