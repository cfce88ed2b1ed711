// The answer lease: which generation may speak.
module AnswerLease {
  import opened Protocol

  datatype Lease = Lease(name: string, conversationVersion: nat, generation: Id)

  datatype LeaseState = LeaseState(version: nat, sequence: nat, turnOpen: bool, active: Option<Lease>)

  const NO_LEASE := LeaseState(0, 0, false, None)

  // ---------- the name hashed into a lease id ----------

  function Digit(d: nat): char
    requires d < 10
  {
    (d as char) + '0'
  }

  function Decimal(n: nat): string {
    if n < 10 then [Digit(n)] else Decimal(n / 10) + [Digit(n % 10)]
  }

  function LeaseName(version: nat, sequence: nat): string {
    "answer:" + Decimal(version) + ":" + Decimal(sequence)
  }

  lemma {:induction false} DecimalHasNoColon(n: nat)
    ensures ':' !in Decimal(n) && Decimal(n) != []
  {
    if n >= 10 {
      DecimalHasNoColon(n / 10);
    }
  }

  lemma {:induction false} DecimalInjective(a: nat, b: nat)
    requires Decimal(a) == Decimal(b)
    ensures a == b
  {
    var s, t := Decimal(a), Decimal(b);
    DecimalHasNoColon(a / 10);
    DecimalHasNoColon(b / 10);
    assert s[|s| - 1] == t[|t| - 1];
    assert a % 10 == b % 10;
    if a >= 10 && b >= 10 {
      assert Decimal(a / 10) == s[..|s| - 1] == t[..|t| - 1] == Decimal(b / 10);
      DecimalInjective(a / 10, b / 10);
    }
  }

  // Two colon-free prefixes followed by a colon agree when the whole strings do.
  lemma SplitAtColon(a: string, b: string, x: string, y: string)
    requires ':' !in a && ':' !in b
    requires a + ":" + x == b + ":" + y
    ensures a == b && x == y
  {
    var s, t := a + ":" + x, b + ":" + y;
    assert s[|a|] == ':' && t[|b|] == ':';
    assert forall i :: 0 <= i < |a| ==> s[i] == a[i];
    assert forall i :: 0 <= i < |b| ==> t[i] == b[i];
    assert |a| == |b|;
    assert a == s[..|a|] == t[..|b|] == b;
    assert x == s[|a| + 1..] == t[|b| + 1..] == y;
  }

  lemma LeaseNameInjective(v: nat, q: nat, w: nat, r: nat)
    requires LeaseName(v, q) == LeaseName(w, r)
    ensures v == w && q == r
  {
    var a, b := Decimal(v) + ":" + Decimal(q), Decimal(w) + ":" + Decimal(r);
    assert LeaseName(v, q) == "answer:" + a && LeaseName(w, r) == "answer:" + b;
    assert a == LeaseName(v, q)[7..] == LeaseName(w, r)[7..] == b;
    DecimalHasNoColon(v);
    DecimalHasNoColon(w);
    SplitAtColon(Decimal(v), Decimal(w), Decimal(q), Decimal(r));
    DecimalInjective(v, w);
    DecimalInjective(q, r);
  }

  // ---------- the operations ----------

  function TurnOpened(s: LeaseState): LeaseState {
    if s.turnOpen then s else LeaseState(SaturatingAdd(s.version, 1), s.sequence, true, None)
  }

  function Granted(s: LeaseState, g: Id): LeaseState {
    var n := SaturatingAdd(s.sequence, 1);
    LeaseState(s.version, n, false, Some(Lease(LeaseName(s.version, n), s.version, g)))
  }

  function Withdrawn(s: LeaseState, g: Id): LeaseState {
    if Accepts(s, g) then s.(active := None) else s
  }

  predicate Accepts(s: LeaseState, g: Id) {
    s.active.Some? && s.active.value.generation == g
  }

  class AnswerLeaseManager {
    var conversationVersion: nat
    var leaseSequence: nat
    var userTurnOpen: bool
    var active: Option<Lease>

    ghost function State(): LeaseState
      reads this
    {
      LeaseState(conversationVersion, leaseSequence, userTurnOpen, active)
    }

    constructor ()
      ensures State() == NO_LEASE
    {
      conversationVersion, leaseSequence, userTurnOpen, active := 0, 0, false, None;
    }

    method BeginUserTurn()
      modifies this
      ensures State() == TurnOpened(old(State()))
    {
      if userTurnOpen {
        return;
      }
      conversationVersion := SaturatingAdd(conversationVersion, 1);
      userTurnOpen := true;
      active := None;
    }

    method Issue(g: Id)
      modifies this
      ensures State() == Granted(old(State()), g)
    {
      leaseSequence := SaturatingAdd(leaseSequence, 1);
      userTurnOpen := false;
      var name := LeaseName(conversationVersion, leaseSequence);
      active := Some(Lease(name, conversationVersion, g));
    }

    method Revoke(g: Id)
      modifies this
      ensures State() == Withdrawn(old(State()), g)
    {
      if active.Some? && active.value.generation == g {
        active := None;
      }
    }
  }

  // ---------- runs of lease operations ----------

  datatype LeaseOp = OpenTurn | Grant(generation: Id) | Withdraw(generation: Id)

  function Apply(s: LeaseState, op: LeaseOp): LeaseState {
    match op
    case OpenTurn => TurnOpened(s)
    case Grant(g) => Granted(s, g)
    case Withdraw(g) => Withdrawn(s, g)
  }

  function AfterOps(s: LeaseState, ops: seq<LeaseOp>): LeaseState
    decreases ops
  {
    if ops == [] then s else AfterOps(Apply(s, ops[0]), ops[1..])
  }

  // The leases handed out along a run, in order.
  function Issued(s: LeaseState, ops: seq<LeaseOp>): seq<Lease>
    decreases ops
  {
    if ops == [] then []
    else
      var t := Apply(s, ops[0]);
      (if ops[0].Grant? then [t.active.value] else []) + Issued(t, ops[1..])
  }

  // `lease` was issued after a state with counter `low`, under a counter no larger than `high`.
  ghost predicate NumberedWithin(lease: Lease, version: nat, low: nat, high: nat) {
    version <= lease.conversationVersion &&
    exists n :: low < n <= high && lease.name == LeaseName(lease.conversationVersion, n)
  }

  lemma {:induction false} CountersNeverFall(s: LeaseState, ops: seq<LeaseOp>)
    requires s.version <= U64_MAX && s.sequence <= U64_MAX
    ensures s.sequence <= AfterOps(s, ops).sequence <= U64_MAX && s.version <= AfterOps(s, ops).version <= U64_MAX
    decreases ops
  {
    if ops != [] {
      CountersNeverFall(Apply(s, ops[0]), ops[1..]);
    }
  }

  lemma {:induction false} IssuedAreNumbered(s: LeaseState, ops: seq<LeaseOp>)
    requires s.version <= U64_MAX && AfterOps(s, ops).sequence < U64_MAX && s.sequence <= U64_MAX
    ensures forall lease :: lease in Issued(s, ops) ==>
            NumberedWithin(lease, s.version, s.sequence, AfterOps(s, ops).sequence)
    decreases ops
  {
    hide LeaseName;
    if ops != [] {
      var t := Apply(s, ops[0]);
      CountersNeverFall(t, ops[1..]);
      IssuedAreNumbered(t, ops[1..]);
      var high := AfterOps(s, ops).sequence;
      forall lease | lease in Issued(s, ops)
        ensures NumberedWithin(lease, s.version, s.sequence, high)
      {
        if lease in Issued(t, ops[1..]) {
          assert NumberedWithin(lease, t.version, t.sequence, high);
        } else {
          assert lease.name == LeaseName(lease.conversationVersion, t.sequence);
        }
      }
    }
  }

  // Below counter saturation, no two leases of a run hash the same name, and conversation
  // versions never go back.
  lemma {:induction false} LeasesAreDistinct(s: LeaseState, ops: seq<LeaseOp>, i: nat, j: nat)
    requires s.version <= U64_MAX && s.sequence <= U64_MAX && AfterOps(s, ops).sequence < U64_MAX
    requires i < j < |Issued(s, ops)|
    ensures Issued(s, ops)[i].name != Issued(s, ops)[j].name
    ensures Issued(s, ops)[i].conversationVersion <= Issued(s, ops)[j].conversationVersion
    decreases ops
  {
    hide LeaseName;
    var t := Apply(s, ops[0]);
    var rest := Issued(t, ops[1..]);
    if !ops[0].Grant? {
      assert Issued(s, ops) == rest;
      LeasesAreDistinct(t, ops[1..], i, j);
    } else {
      assert Issued(s, ops)[j] == rest[j - 1];
      if i > 0 {
        LeasesAreDistinct(t, ops[1..], i - 1, j - 1);
      } else {
        IssuedAreNumbered(t, ops[1..]);
        var later := rest[j - 1];
        assert later in rest;
        assert NumberedWithin(later, t.version, t.sequence, AfterOps(t, ops[1..]).sequence);
        var n :| t.sequence < n && later.name == LeaseName(later.conversationVersion, n);
        if t.active.value.name == later.name {
          LeaseNameInjective(s.version, t.sequence, later.conversationVersion, n);
        }
      }
    }
  }

  lemma {:induction false} TurnsRaiseVersion(s: LeaseState, ops: seq<LeaseOp>)
    requires s.version <= U64_MAX && s.sequence <= U64_MAX && !s.turnOpen && AfterOps(s, ops).version < U64_MAX
    ensures AfterOps(s, ops).version == s.version <==> OpenTurn !in ops
    decreases ops
  {
    hide LeaseName;
    if ops != [] {
      var t := Apply(s, ops[0]);
      CountersNeverFall(t, ops[1..]);
      assert OpenTurn in ops <==> ops[0] == OpenTurn || OpenTurn in ops[1..];
      if ops[0] != OpenTurn {
        TurnsRaiseVersion(t, ops[1..]);
      }
    }
  }

  // Below saturation, the version a lease was issued under is still current exactly while no user turn has
  // been opened since.
  lemma VersionsTellTurns(s: LeaseState, g: Id, ops: seq<LeaseOp>)
    requires s.version <= U64_MAX && s.sequence <= U64_MAX && AfterOps(Granted(s, g), ops).version < U64_MAX
    ensures var issued := Granted(s, g);
            && issued.active.Some? && issued.active.value.conversationVersion == s.version
            && (AfterOps(issued, ops).version == issued.active.value.conversationVersion <==> OpenTurn !in ops)
  {
    TurnsRaiseVersion(Granted(s, g), ops);
    hide LeaseName;
  }

  lemma {:induction false} NothingRegained(s: LeaseState, ops: seq<LeaseOp>)
    requires s.active.None? && forall op :: op in ops ==> !op.Grant?
    ensures AfterOps(s, ops).active.None?
    decreases ops
  {
    if ops != [] {
      NothingRegained(Apply(s, ops[0]), ops[1..]);
    }
  }

  // A generation once leased is accepted, until another is, exactly while no user turn is opened and it is
  // not itself withdrawn.
  lemma {:induction false} AcceptedUntil(s: LeaseState, g: Id, ops: seq<LeaseOp>)
    requires Accepts(s, g) && !s.turnOpen && forall op :: op in ops ==> !op.Grant?
    ensures Accepts(AfterOps(s, ops), g) <==> OpenTurn !in ops && Withdraw(g) !in ops
    decreases ops
  {
    if ops != [] {
      var t := Apply(s, ops[0]);
      assert forall op :: op in ops <==> op == ops[0] || op in ops[1..];
      if ops[0] == OpenTurn || ops[0] == Withdraw(g) {
        NothingRegained(t, ops[1..]);
      } else {
        AcceptedUntil(t, g, ops[1..]);
      }
    }
  }

  lemma GrantedIsAccepted(s: LeaseState, g: Id, h: Id)
    ensures Accepts(Granted(s, g), h) <==> h == g
    ensures !Granted(s, g).turnOpen
  {
    hide LeaseName;
  }
}
