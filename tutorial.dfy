/** The tutorial pop-ups (assets/js/tutorial.js): ten one-way checkpoints, each with a
    condition on the game state, and the pop-up request a checkpoint issues the first time
    its condition is seen to hold. The guarded writes themselves are `Village.Game.UpdatePopups`;
    this module states what one call of it must do. */
module Tutorial {
  import World

  /** The keys of `Game.prototype.tutorial`, in declaration order. */
  datatype Checkpoint = Resource | Tent | Assign | Pier | Chaos | Stone | Smithy | Academy | Mentor | Manager

  const Order: seq<Checkpoint> := [Resource, Tent, Assign, Pier, Chaos, Stone, Smithy, Academy, Mentor, Manager]

  /** Position of a checkpoint in declaration order (and in the order `updatePopups` tests them). */
  function Rank(c: Checkpoint): (r: nat)
    ensures r < 10
  {
    match c
    case Resource => 0
    case Tent => 1
    case Assign => 2
    case Pier => 3
    case Chaos => 4
    case Stone => 5
    case Smithy => 6
    case Academy => 7
    case Mentor => 8
    case Manager => 9
  }

  /** `Rank` is the position in `Order`. */
  lemma OrderRank(c: Checkpoint)
    ensures Rank(c) < |Order| && Order[Rank(c)] == c
  {
  }

  lemma RankOrder(i: nat)
    requires i < |Order|
    ensures Rank(Order[i]) == i
  {
  }

  lemma InOrder(c: Checkpoint)
    ensures c in Order
  {
    OrderRank(c);
  }

  /** The value of `Game.prototype.tutorial` at one moment: the checkpoints whose flag is
      true, that is, whose pop-up has been shown. */
  type Flags = set<Checkpoint>

  /** The object `Game.prototype.tutorial`, one flag per checkpoint, which `updatePopups`
      sets in place. */
  class Shown {
    var resource: bool
    var tent: bool
    var assign: bool
    var pier: bool
    var chaos: bool
    var stone: bool
    var smithy: bool
    var academy: bool
    var mentor: bool
    var manager: bool

    /** The object literal: every flag false. */
    constructor()
      ensures Value() == {}
    {
      resource, tent, assign, pier, chaos := false, false, false, false, false;
      stone, smithy, academy, mentor, manager := false, false, false, false, false;
    }

    /** `this.tutorial[c]`. */
    predicate Has(c: Checkpoint)
      reads this
    {
      match c
      case Resource => resource
      case Tent => tent
      case Assign => assign
      case Pier => pier
      case Chaos => chaos
      case Stone => stone
      case Smithy => smithy
      case Academy => academy
      case Mentor => mentor
      case Manager => manager
    }

    /** `this.tutorial[c] = true`. */
    method Mark(c: Checkpoint)
      modifies this
      ensures Value() == old(Value()) + {c}
    {
      match c
      case Resource => resource := true;
      case Tent => tent := true;
      case Assign => assign := true;
      case Pier => pier := true;
      case Chaos => chaos := true;
      case Stone => stone := true;
      case Smithy => smithy := true;
      case Academy => academy := true;
      case Mentor => mentor := true;
      case Manager => manager := true;
    }

    /** The flags as a value: the checkpoints whose flag is true. */
    function Value(): (v: Flags)
      reads this
      ensures forall c :: c in v <==> Has(c)
    {
      set c | c in Order && Has(c)
    }
  }

  /** The condition under which a checkpoint's pop-up is due. `unlocks.mentor` and
      `chaos.pier` count as false (and as not above zero) when the entry is absent. */
  predicate Holds(c: Checkpoint, s: World.State)
  {
    match c
    case Resource => s.wood >= 4.0
    case Tent => s.wood >= 10.0 && s.food >= 10.0
    case Assign => s.levels.tent >= 1
    case Pier => s.levels.pier >= 1
    case Chaos => "pier" in s.chaos && s.chaos["pier"] > 0.0
    case Stone => s.levels.quarry >= 1
    case Smithy => s.levels.smithy >= 1
    case Academy => s.levels.academy >= 1
    case Mentor => "mentor" in s.unlocks
    case Manager => "manager" in s.unlocks
  }

  /** A call of `showPopup`: which checkpoint, the CSS selector it is placed next to, and the
      interface tab it switches to first (the text is not modelled). */
  datatype Request = Request(checkpoint: Checkpoint, anchor: World.Option<string>, tab: World.Option<string>)

  /** The selector and tab each checkpoint passes to `showPopup`. */
  function Popup(c: Checkpoint): (r: Request)
    ensures r.checkpoint == c && r.anchor.Some?
    ensures r.tab.Some? ==> r.tab.value == if c == Academy then "research" else "assign"
  {
    match c
    case Resource => Request(c, World.Some("#warehouse"), World.None)
    case Tent => Request(c, World.Some("#craft"), World.None)
    case Assign => Request(c, World.Some("#assign"), World.Some("assign"))
    case Pier => Request(c, World.Some("#assign"), World.Some("assign"))
    case Chaos => Request(c, World.Some("#assign"), World.None)
    case Stone => Request(c, World.Some("#warehouse"), World.None)
    case Smithy => Request(c, World.Some("#warehouse"), World.None)
    case Academy => Request(c, World.Some("#research"), World.Some("research"))
    case Mentor => Request(c, World.Some("#assign"), World.Some("assign"))
    case Manager => Request(c, World.Some("#assign"), World.Some("assign"))
  }

  /** The flags once the guarded writes for the checkpoints `cs` have run on `f`. */
  function LatchedOver(f: Flags, s: World.State, cs: seq<Checkpoint>): Flags
  {
    f + set c | c in cs && Holds(c, s)
  }

  /** The flags after one call: a flag is set when it was set or its condition holds. */
  function Latched(f: Flags, s: World.State): Flags
  {
    LatchedOver(f, s, Order)
  }

  /** A flag is set after one call exactly when it was set before or its condition holds. */
  lemma LatchedHas(f: Flags, s: World.State, c: Checkpoint)
    ensures c in Latched(f, s) <==> c in f || Holds(c, s)
  {
    InOrder(c);
  }

  /** A checkpoint's pop-up is due: its condition holds and its flag is still clear. */
  predicate Due(f: Flags, s: World.State, c: Checkpoint)
  {
    Holds(c, s) && c !in f
  }

  /** What the guarded write for `c` issues: its pop-up when due, nothing otherwise. */
  function Issued(f: Flags, s: World.State, c: Checkpoint): seq<Request>
  {
    if Due(f, s, c) then [Popup(c)] else []
  }

  /** The requests one call issues for the checkpoints `cs`, in the order of `cs`. */
  function Pending(f: Flags, s: World.State, cs: seq<Checkpoint>): seq<Request>
  {
    if cs == [] then [] else Issued(f, s, cs[0]) + Pending(f, s, cs[1..])
  }

  /** The requests one call issues: every due checkpoint, in declaration order. */
  function Requests(f: Flags, s: World.State): seq<Request>
  {
    Pending(f, s, Order)
  }

  // ---------------------------------------------------------------------------------------
  // Properties of one call

  /** Some request of `rs` is for checkpoint `c`. */
  predicate Mentions(rs: seq<Request>, c: Checkpoint)
  {
    exists k :: 0 <= k < |rs| && rs[k].checkpoint == c
  }

  lemma MentionsConcat(a: seq<Request>, b: seq<Request>, c: Checkpoint)
    ensures Mentions(a + b, c) <==> Mentions(a, c) || Mentions(b, c)
  {
    if Mentions(a + b, c) {
      var k :| 0 <= k < |a + b| && (a + b)[k].checkpoint == c;
      if k < |a| {
        assert a[k] == (a + b)[k];
      } else {
        assert b[k - |a|] == (a + b)[k];
      }
    }
    if Mentions(a, c) {
      var k :| 0 <= k < |a| && a[k].checkpoint == c;
      assert (a + b)[k] == a[k];
    }
    if Mentions(b, c) {
      var k :| 0 <= k < |b| && b[k].checkpoint == c;
      assert (a + b)[|a| + k] == b[k];
    }
  }

  /** A request is issued for `c` exactly when `c` is listed and due. */
  lemma {:induction false} PendingExactly(f: Flags, s: World.State, cs: seq<Checkpoint>, c: Checkpoint)
    ensures Mentions(Pending(f, s, cs), c) <==> c in cs && Due(f, s, c)
  {
    if cs != [] {
      PendingExactly(f, s, cs[1..], c);
      MentionsConcat(Issued(f, s, cs[0]), Pending(f, s, cs[1..]), c);
      assert c in cs <==> c == cs[0] || c in cs[1..];
      if Due(f, s, cs[0]) {
        assert Issued(f, s, cs[0])[0].checkpoint == cs[0];
      }
    }
  }

  /** A checkpoint's pop-up is requested in a call iff its condition holds and its flag was
      clear on entry. */
  lemma RequestIffDue(f: Flags, s: World.State, c: Checkpoint)
    ensures Mentions(Requests(f, s), c) <==> Holds(c, s) && c !in f
  {
    PendingExactly(f, s, Order, c);
    InOrder(c);
  }

  /** Every request is the one `showPopup` call its checkpoint makes. */
  lemma {:induction false} PendingArePopups(f: Flags, s: World.State, cs: seq<Checkpoint>)
    ensures forall k :: 0 <= k < |Pending(f, s, cs)| ==> Pending(f, s, cs)[k] == Popup(Pending(f, s, cs)[k].checkpoint)
  {
    if cs != [] {
      PendingArePopups(f, s, cs[1..]);
    }
  }

  /** The checkpoints of `Pending(f, s, cs)` are a subsequence of `cs`: request `k` comes
      from a position of `cs` at or after `k`, and later requests from later positions. */
  predicate Subsequence(rs: seq<Request>, cs: seq<Checkpoint>, pos: seq<nat>)
  {
    && |pos| == |rs|
    && (forall k :: 0 <= k < |pos| ==> pos[k] < |cs| && cs[pos[k]] == rs[k].checkpoint)
    && (forall k, l :: 0 <= k < l < |pos| ==> pos[k] < pos[l])
  }

  /** Positions into `cs[1..]`, as positions into `cs`. */
  function Shift(pos: seq<nat>): (r: seq<nat>)
    ensures |r| == |pos| && forall k :: 0 <= k < |pos| ==> r[k] == pos[k] + 1
  {
    seq(|pos|, k requires 0 <= k < |pos| => pos[k] + 1)
  }

  lemma ShiftedSubsequence(rs: seq<Request>, cs: seq<Checkpoint>, pos: seq<nat>)
    requires |cs| > 0 && Subsequence(rs, cs[1..], pos)
    ensures Subsequence(rs, cs, Shift(pos))
  {
    forall k | 0 <= k < |pos| ensures cs[Shift(pos)[k]] == rs[k].checkpoint {
      assert cs[1..][pos[k]] == cs[pos[k] + 1];
    }
  }

  lemma ConsSubsequence(r: Request, rs: seq<Request>, cs: seq<Checkpoint>, pos: seq<nat>)
    requires |cs| > 0 && cs[0] == r.checkpoint && Subsequence(rs, cs, pos)
    requires forall k :: 0 <= k < |pos| ==> pos[k] > 0
    ensures Subsequence([r] + rs, cs, [0] + pos)
  {
    var p := [0] + pos;
    forall k, l | 0 <= k < l < |p| ensures p[k] < p[l] {
      if k > 0 {
        assert p[k] == pos[k - 1] && p[l] == pos[l - 1];
      } else {
        assert p[l] == pos[l - 1];
      }
    }
  }

  lemma {:induction false} PendingInOrder(f: Flags, s: World.State, cs: seq<Checkpoint>) returns (pos: seq<nat>)
    ensures Subsequence(Pending(f, s, cs), cs, pos)
  {
    if cs == [] {
      pos := [];
    } else {
      var rest := Pending(f, s, cs[1..]);
      var tail := PendingInOrder(f, s, cs[1..]);
      ShiftedSubsequence(rest, cs, tail);
      assert Pending(f, s, cs) == Issued(f, s, cs[0]) + rest;
      if Due(f, s, cs[0]) {
        ConsSubsequence(Popup(cs[0]), rest, cs, Shift(tail));
        pos := [0] + Shift(tail);
      } else {
        pos := Shift(tail);
      }
    }
  }

  /** Requests come out in declaration order, each checkpoint at most once. */
  lemma RequestsInOrder(f: Flags, s: World.State)
    ensures forall k, l :: 0 <= k < l < |Requests(f, s)| ==>
      Rank(Requests(f, s)[k].checkpoint) < Rank(Requests(f, s)[l].checkpoint)
  {
    var pos := PendingInOrder(f, s, Order);
    forall k, l | 0 <= k < l < |Requests(f, s)|
      ensures Rank(Requests(f, s)[k].checkpoint) < Rank(Requests(f, s)[l].checkpoint)
    {
      RankOrder(pos[k]);
      RankOrder(pos[l]);
    }
  }

  lemma {:induction false} PendingSnoc(f: Flags, s: World.State, cs: seq<Checkpoint>, c: Checkpoint)
    ensures Pending(f, s, cs + [c]) == Pending(f, s, cs) + Issued(f, s, c)
  {
    if cs == [] {
      assert ([c])[1..] == [];
    } else {
      assert (cs + [c])[1..] == cs[1..] + [c];
      PendingSnoc(f, s, cs[1..], c);
    }
  }

  /** The guarded write for checkpoint number `k` sees the flag of `Order[k]` as it was on
      entry (no earlier write touches it). When the condition holds and that flag is clear,
      it sets the flag and adds the checkpoint's request; otherwise it changes nothing. */
  lemma WriteStep(f: Flags, s: World.State, k: nat)
    requires k < |Order|
    ensures Order[k] in LatchedOver(f, s, Order[..k]) <==> Order[k] in f
    ensures var before, c := LatchedOver(f, s, Order[..k]), Order[k];
      LatchedOver(f, s, Order[..k + 1]) == if Holds(c, s) && c !in before then before + {c} else before
    ensures var before, c := LatchedOver(f, s, Order[..k]), Order[k];
      Pending(f, s, Order[..k + 1]) ==
        if Holds(c, s) && c !in before then Pending(f, s, Order[..k]) + [Popup(c)] else Pending(f, s, Order[..k])
  {
    var c := Order[k];
    assert Order[..k + 1] == Order[..k] + [c];
    if c in Order[..k] {
      var j :| 0 <= j < k && Order[j] == c;
      RankOrder(j);
      RankOrder(k);
    }
    PendingSnoc(f, s, Order[..k], c);
    if !Due(f, s, c) {
      assert Pending(f, s, Order[..k]) + [] == Pending(f, s, Order[..k]);
    }
  }

  /** Flags only go from false to true, and a flag that was clear is set by a call exactly
      when its pop-up was due. */
  lemma FlagsNeverReset(f: Flags, s: World.State)
    ensures f <= Latched(f, s)
    ensures forall c :: c in Latched(f, s) - f <==> Due(f, s, c)
  {
    forall c ensures c in Latched(f, s) - f <==> Due(f, s, c) {
      LatchedHas(f, s, c);
    }
  }

  /** Nothing is requested when no checkpoint of `cs` is due. */
  lemma {:induction false} NothingPending(f: Flags, s: World.State, cs: seq<Checkpoint>)
    requires forall c :: c in cs ==> !Due(f, s, c)
    ensures Pending(f, s, cs) == []
  {
    if cs != [] {
      NothingPending(f, s, cs[1..]);
    }
  }

  /** A second call on the same game state issues no requests and sets no further flag. */
  lemma SecondCallQuiet(f: Flags, s: World.State)
    ensures Latched(Latched(f, s), s) == Latched(f, s)
    ensures Requests(Latched(f, s), s) == []
  {
    forall c ensures !Due(Latched(f, s), s, c) {
      LatchedHas(f, s, c);
    }
    NothingPending(Latched(f, s), s, Order);
  }

  /** A game with 12 wood and 10 food and nothing built or unlocked: the first call asks for
      the resource pop-up and then the tent pop-up, in that order. */
  lemma FirstCallRequests(s: World.State)
    requires s.wood == 12.0 && s.food == 10.0 && s.levels == World.Levels(0, 0, 0, 0, 0)
    requires s.chaos == map[] && s.unlocks == {}
    ensures Requests({}, s) == [Popup(Resource), Popup(Tent)]
  {
    var rs := Requests({}, s);
    forall c ensures Mentions(rs, c) <==> c == Resource || c == Tent {
      RequestIffDue({}, s, c);
    }
    RequestsInOrder({}, s);
    PendingArePopups({}, s, Order);
    assert Mentions(rs, Resource) && Mentions(rs, Tent);
    forall k | 0 <= k < |rs| ensures Rank(rs[k].checkpoint) <= 1 {
      assert Mentions(rs, rs[k].checkpoint);
    }
    // two different checkpoints are mentioned, so there are at least two requests
    var a :| 0 <= a < |rs| && rs[a].checkpoint == Resource;
    var b :| 0 <= b < |rs| && rs[b].checkpoint == Tent;
    assert a != b;
    // ranks rise strictly from request to request, so request `k` has rank at least `k`
    forall k | 0 <= k < |rs| ensures Rank(rs[k].checkpoint) >= k {
      var j := 0;
      while j < k
        invariant j <= k && Rank(rs[j].checkpoint) >= j
      {
        j := j + 1;
      }
    }
    assert Rank(rs[|rs| - 1].checkpoint) >= |rs| - 1;
    OrderRank(rs[0].checkpoint);
    OrderRank(rs[1].checkpoint);
  }

  /** The same call sets exactly the resource and tent flags. */
  lemma FirstCallFlags(s: World.State)
    requires s.wood == 12.0 && s.food == 10.0 && s.levels == World.Levels(0, 0, 0, 0, 0)
    requires s.chaos == map[] && s.unlocks == {}
    ensures Latched({}, s) == {Resource, Tent}
  {
    forall c ensures c in Latched({}, s) <==> c == Resource || c == Tent {
      LatchedHas({}, s, c);
    }
  }

  /** More flags on entry give more flags on exit. */
  lemma LatchedMonotone(f: Flags, g: Flags, s: World.State)
    requires f <= g
    ensures Latched(f, s) <= Latched(g, s)
  {
  }
}
