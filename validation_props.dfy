/** What the validator promises, proved about its specification `Validation.Validate`. */
module ValidationProperties {
  import opened Wrappers
  import opened Json
  import opened Models
  import opened Validation

  /** Issues appear in strictly increasing check order. */
  predicate Ordered(s: seq<Issue>) {
    forall i, j :: 0 <= i < j < |s| ==> Rank(s[i]) < Rank(s[j])
  }

  predicate RanksIn(s: seq<Issue>, lo: nat, hi: nat) {
    forall i :: 0 <= i < |s| ==> lo <= Rank(s[i]) <= hi
  }

  lemma OrderedConcat(a: seq<Issue>, b: seq<Issue>, lo: nat, mid: nat, hi: nat)
    requires lo <= mid + 1 && mid <= hi
    requires Ordered(a) && Ordered(b) && RanksIn(a, lo, mid) && RanksIn(b, mid + 1, hi)
    ensures Ordered(a + b) && RanksIn(a + b, lo, hi)
  {
    forall i | 0 <= i < |a + b| ensures lo <= Rank((a + b)[i]) <= hi {
      if i >= |a| {
        assert (a + b)[i] == b[i - |a|];
      } else {
        assert (a + b)[i] == a[i];
      }
    }
    forall i, j | 0 <= i < j < |a + b| ensures Rank((a + b)[i]) < Rank((a + b)[j]) {
      if j < |a| {
      } else if i < |a| {
        assert Rank((a + b)[i]) <= mid < Rank((a + b)[j]);
      }
    }
  }

  lemma Singleton(p: seq<Issue>, k: nat)
    requires AllOfRank(p, k) && |p| <= 1
    ensures Ordered(p) && RanksIn(p, k, k)
  {
  }

  /** Appending one check's issues adds them to that check's share and leaves the others alone. */
  lemma OfRankAppend(a: seq<Issue>, p: seq<Issue>, j: nat, k: nat)
    requires AllOfRank(p, j)
    ensures OfRank(a + p, k) == if k == j then OfRank(a, k) + p else OfRank(a, k)
  {
    OfRankConcat(a, p, k);
    OfRankUniform(p, j, k);
    if k != j {
      assert OfRank(a, k) + [] == OfRank(a, k);
    }
  }

  /** The seven checks' issues, each from one check: `p[k - 1]` holds the issues of check `k`. */
  lemma {:induction false} OfRankSeven(p1: seq<Issue>, p2: seq<Issue>, p3: seq<Issue>, p4: seq<Issue>,
                                       p5: seq<Issue>, p6: seq<Issue>, p7: seq<Issue>, k: nat)
    requires AllOfRank(p1, 1) && AllOfRank(p2, 2) && AllOfRank(p3, 3) && AllOfRank(p4, 4)
    requires AllOfRank(p5, 5) && AllOfRank(p6, 6) && AllOfRank(p7, 7)
    ensures OfRank(p1 + p2 + p3 + p4 + p5 + p6 + p7, k)
         == if k == 1 then p1 else if k == 2 then p2 else if k == 3 then p3 else if k == 4 then p4
            else if k == 5 then p5 else if k == 6 then p6 else if k == 7 then p7 else []
  {
    var a2 := p1 + p2;
    var a3 := a2 + p3;
    var a4 := a3 + p4;
    var a5 := a4 + p5;
    var a6 := a5 + p6;
    OfRankUniform(p1, 1, k);
    OfRankAppend(p1, p2, 2, k);
    OfRankAppend(a2, p3, 3, k);
    OfRankAppend(a3, p4, 4, k);
    OfRankAppend(a4, p5, 5, k);
    OfRankAppend(a5, p6, 6, k);
    OfRankAppend(a6, p7, 7, k);
    assert [] + p2 == p2 && [] + p3 == p3 && [] + p4 == p4 && [] + p5 == p5 && [] + p6 == p6 && [] + p7 == p7;
  }

  lemma {:induction false} OfRankMembers(s: seq<Issue>, k: nat, x: Issue)
    ensures x in OfRank(s, k) <==> x in s && Rank(x) == k
  {
    if s != [] {
      OfRankMembers(s[1..], k, x);
      assert s == [s[0]] + s[1..];
    }
  }

  // ------------------------------------------------- the checks, slot by slot

  /** The slots as the catalog resolves them. */
  function SlotsOf(c: map<string, string>, cat: map<string, Product>): Slots {
    ResolveSlots(c, cat)
  }

  function SocketCheck(s: Slots): seq<Issue> { SocketPart(s.cpu, s.mb) }

  function RamTypeCheck(s: Slots): seq<Issue> {
    if s.ram.Some? && s.mb.Some? then RamTypeIssues(s.ram.value.specifications, s.mb.value.specifications) else []
  }

  function RamSpeedCheck(s: Slots): seq<Issue> {
    if s.ram.Some? && s.mb.Some? then RamSpeedIssues(s.ram.value.specifications, s.mb.value.specifications) else []
  }

  function GpuCheck(s: Slots): seq<Issue> { GpuCasePart(s.gpu, s.case_) }

  function PsuCheck(s: Slots): seq<Issue> { PsuPartIssues(s.psu, TotalPower(s)) }

  function CoolerSocketCheck(s: Slots): Result<seq<Issue>> {
    if s.cooler.Some? && s.cpu.Some? then CoolerSocketIssues(s.cooler.value.specifications, s.cpu.value.specifications)
    else Ok([])
  }

  function CoolerHeightCheck(s: Slots): seq<Issue> {
    if s.cooler.Some? && s.cpu.Some? && s.case_.Some? then
      CoolerHeightIssues(s.cooler.value.specifications, s.case_.value.specifications)
    else []
  }

  /**
   * Unless nothing was requested, the response lists the seven checks' issues
   * in check order and reports the accumulated power figures; it raises only
   * when the cooler socket check does.
   */
  lemma Decompose(c: map<string, string>, cat: map<string, Product>)
    requires RequestedIds(c) != {}
    ensures var s := SlotsOf(c, cat);
      && (Validate(c, cat).Raised? <==> CoolerSocketCheck(s).Raised?)
      && (Validate(c, cat).Raised? ==> Validate(c, cat).error == CoolerSocketCheck(s).error)
      && (Validate(c, cat).Ok? ==>
           var r := Validate(c, cat).value;
           && r.issues == SocketCheck(s) + RamTypeCheck(s) + RamSpeedCheck(s) + GpuCheck(s) + PsuCheck(s)
                          + CoolerSocketCheck(s).value + CoolerHeightCheck(s)
           && r.totalPowerConsumption == Positive(TotalPower(s))
           && r.recommendedPsuWattage == Positive(Recommended(s.psu, TotalPower(s)))
           && r.isValid == NoErrors(r.issues))
  {
    FetchedSlots(c, cat);
    var s := SlotsOf(c, cat);
    assert Validate(c, cat) == Respond(s);
    RespondRaises(s);
    if Respond(s).Ok? {
      RespondIssues(s);
      RespondFigures(s);
    }
  }

  lemma CoolerPartSplit(s: Slots)
    ensures CoolerPart(s.cooler, s.cpu, s.case_)
         == match CoolerSocketCheck(s)
            case Ok(a) => Ok(a + CoolerHeightCheck(s))
            case Raised(e) => Raised(e)
  {
    if !(s.cooler.Some? && s.cpu.Some?) {
      assert CoolerSocketCheck(s) == Ok([]) && CoolerHeightCheck(s) == [];
      assert CoolerSocketCheck(s).value + CoolerHeightCheck(s) == [];
    }
  }

  lemma RespondRaises(s: Slots)
    ensures Respond(s).Raised? <==> CoolerSocketCheck(s).Raised?
    ensures Respond(s).Raised? ==> Respond(s).error == CoolerSocketCheck(s).error
  {
    CoolerPartSplit(s);
  }

  lemma RespondIssues(s: Slots)
    requires Respond(s).Ok?
    ensures Respond(s).value.issues
         == SocketCheck(s) + RamTypeCheck(s) + RamSpeedCheck(s) + GpuCheck(s) + PsuCheck(s)
            + CoolerSocketCheck(s).value + CoolerHeightCheck(s)
  {
    CoolerPartSplit(s);
    var p1, p2, p3, p4, p5 := SocketCheck(s), RamTypeCheck(s), RamSpeedCheck(s), GpuCheck(s), PsuCheck(s);
    var p6, p7 := CoolerSocketCheck(s).value, CoolerHeightCheck(s);
    assert RamPart(s.ram, s.mb) == p2 + p3;
    assert IssuesBeforeCooler(s) == p1 + (p2 + p3) + p4 + p5;
    AppendAssoc(p1, p2, p3);
    assert Respond(s).value.issues == p1 + p2 + p3 + p4 + p5 + (p6 + p7);
    AppendAssoc(p1 + p2 + p3 + p4 + p5, p6, p7);
  }

  lemma AppendAssoc(a: seq<Issue>, b: seq<Issue>, c: seq<Issue>)
    ensures a + (b + c) == a + b + c
  {
  }

  lemma RespondFigures(s: Slots)
    requires Respond(s).Ok?
    ensures var r := Respond(s).value;
      && r.totalPowerConsumption == Positive(TotalPower(s))
      && r.recommendedPsuWattage == Positive(Recommended(s.psu, TotalPower(s)))
      && r.isValid == NoErrors(r.issues)
  {
  }

  /** The issues a response holds for check `k`, in terms of the resolved slots. */
  lemma IssuesOfCheck(c: map<string, string>, cat: map<string, Product>, k: nat)
    requires RequestedIds(c) != {} && Validate(c, cat).Ok?
    ensures var s := SlotsOf(c, cat);
      OfRank(Validate(c, cat).value.issues, k)
        == if k == 1 then SocketCheck(s) else if k == 2 then RamTypeCheck(s) else if k == 3 then RamSpeedCheck(s)
           else if k == 4 then GpuCheck(s) else if k == 5 then PsuCheck(s)
           else if k == 6 then CoolerSocketCheck(s).value else if k == 7 then CoolerHeightCheck(s) else []
  {
    Decompose(c, cat);
    var s := SlotsOf(c, cat);
    OfRankSeven(SocketCheck(s), RamTypeCheck(s), RamSpeedCheck(s), GpuCheck(s), PsuCheck(s),
                CoolerSocketCheck(s).value, CoolerHeightCheck(s), k);
  }

  /** An issue of a given kind is present exactly when its check's issues include one of that kind. */
  lemma HasIssueOfRank(s: seq<Issue>, component: string, t: IssueType)
    ensures HasIssue(s, component, t) <==>
      exists x :: x in OfRank(s, KindRank(component, t)) && x.componentType == component && x.issueType == t
  {
    var k := KindRank(component, t);
    if HasIssue(s, component, t) {
      var i :| 0 <= i < |s| && s[i].componentType == component && s[i].issueType == t;
      OfRankMembers(s, k, s[i]);
    }
    if exists x :: x in OfRank(s, k) && x.componentType == component && x.issueType == t {
      var x :| x in OfRank(s, k) && x.componentType == component && x.issueType == t;
      OfRankMembers(s, k, x);
      var i :| 0 <= i < |s| && s[i] == x;
    }
  }

  // ------------------------------------------------------------- properties

  /**
   * No non-empty id: the only response is `is_valid = false` with the single
   * general / missing_components / error issue and no power figures; with any
   * id, that issue never appears.
   */
  lemma EmptyRequest(c: map<string, string>, cat: map<string, Product>)
    ensures RequestedIds(c) == {} ==>
      Validate(c, cat) == Ok(ValidationResponse(false, [Issue("general", MissingComponents, Error, NoComponents, None)],
                                                None, None, None))
    ensures RequestedIds(c) != {} && Validate(c, cat).Ok? ==>
      !HasIssue(Validate(c, cat).value.issues, "general", MissingComponents)
  {
    if RequestedIds(c) != {} && Validate(c, cat).Ok? {
      IssuesOfCheck(c, cat, 0);
      HasIssueOfRank(Validate(c, cat).value.issues, "general", MissingComponents);
    }
  }

  /** Issues are listed in check order, so there are at most seven. */
  lemma IssuesInCheckOrder(c: map<string, string>, cat: map<string, Product>)
    requires Validate(c, cat).Ok?
    ensures Ordered(Validate(c, cat).value.issues)
    ensures |Validate(c, cat).value.issues| <= 7
  {
    if RequestedIds(c) != {} {
      Decompose(c, cat);
      var s := SlotsOf(c, cat);
      var p1, p2, p3, p4 := SocketCheck(s), RamTypeCheck(s), RamSpeedCheck(s), GpuCheck(s);
      var p5, p6, p7 := PsuCheck(s), CoolerSocketCheck(s).value, CoolerHeightCheck(s);
      Singleton(p1, 1); Singleton(p2, 2); Singleton(p3, 3); Singleton(p4, 4);
      Singleton(p5, 5); Singleton(p6, 6); Singleton(p7, 7);
      OrderedConcat(p1, p2, 1, 1, 2);
      OrderedConcat(p1 + p2, p3, 1, 2, 3);
      OrderedConcat(p1 + p2 + p3, p4, 1, 3, 4);
      OrderedConcat(p1 + p2 + p3 + p4, p5, 1, 4, 5);
      OrderedConcat(p1 + p2 + p3 + p4 + p5, p6, 1, 5, 6);
      OrderedConcat(p1 + p2 + p3 + p4 + p5 + p6, p7, 1, 6, 7);
    }
  }

  /** `is_valid` holds exactly when no issue is an error; warnings alone never invalidate. */
  lemma ValidIffNoErrors(c: map<string, string>, cat: map<string, Product>)
    requires Validate(c, cat).Ok?
    ensures var r := Validate(c, cat).value;
      r.isValid <==> forall i :: 0 <= i < |r.issues| ==> r.issues[i].severity != Error
  {
    if RequestedIds(c) == {} {
      assert Validate(c, cat).value.issues[0].severity == Error;
    }
  }

  /** The total power: the CPU's numeric TDP (only with a resolved motherboard) plus the GPU's numeric draw. */
  function ExpectedTotal(c: map<string, string>, cat: map<string, Product>): real {
    var cpu, mb, gpu := Lookup(c, cat, "cpu"), Lookup(c, cat, "motherboard"), Lookup(c, cat, "gpu");
    var tdp := if cpu.Some? then SpecGet(cpu.value.specifications, "tdp", Int(0)) else Null;
    var draw := if gpu.Some? then SpecGet(gpu.value.specifications, "power_consumption", Int(0)) else Null;
    (if cpu.Some? && mb.Some? && IsNumber(tdp) then NumberValue(tdp) else 0.0)
    + (if gpu.Some? && IsNumber(draw) then NumberValue(draw) else 0.0)
  }

  lemma TotalPowerRule(c: map<string, string>, cat: map<string, Product>)
    requires RequestedIds(c) != {} && Validate(c, cat).Ok?
    ensures var t := Validate(c, cat).value.totalPowerConsumption;
      (t.Some? <==> ExpectedTotal(c, cat) > 0.0) && (t.Some? ==> t.value == ExpectedTotal(c, cat))
  {
    Decompose(c, cat);
  }

  /**
   * Adding a resolvable GPU whose draw is a non-negative number to a request
   * without one never lowers the reported total power.
   */
  lemma AddingGpuRaisesPower(c: map<string, string>, cat: map<string, Product>, gpuId: string)
    requires "gpu" !in c && gpuId != "" && gpuId in cat
    requires var d := SpecGet(cat[gpuId].specifications, "power_consumption", Int(0)); IsNumber(d) && NumberValue(d) >= 0.0
    requires RequestedIds(c) != {} && Validate(c, cat).Ok? && Validate(c, cat).value.totalPowerConsumption.Some?
    ensures var c' := c["gpu" := gpuId];
      && Validate(c', cat).Ok?
      && Validate(c', cat).value.totalPowerConsumption.Some?
      && Validate(c', cat).value.totalPowerConsumption.value >= Validate(c, cat).value.totalPowerConsumption.value
  {
    var c' := c["gpu" := gpuId];
    assert gpuId in RequestedIds(c');
    assert Lookup(c, cat, "gpu") == None;
    assert forall k :: k != "gpu" ==> Lookup(c', cat, k) == Lookup(c, cat, k);
    Decompose(c, cat);
    Decompose(c', cat);
    TotalPowerRule(c, cat);
    TotalPowerRule(c', cat);
  }

  // ------------------------------------------- per-check rules on the slots

  /** For a non-empty request the response is `Respond` on the slots the catalog resolves. */
  lemma ValidateIsRespond(c: map<string, string>, cat: map<string, Product>)
    requires RequestedIds(c) != {}
    ensures Validate(c, cat) == Respond(SlotsOf(c, cat))
  {
    FetchedSlots(c, cat);
  }

  /** The issues a response holds for check `k`. */
  lemma IssuesOfCheckS(s: Slots, k: nat)
    requires Respond(s).Ok?
    ensures OfRank(Respond(s).value.issues, k)
        == if k == 1 then SocketCheck(s) else if k == 2 then RamTypeCheck(s) else if k == 3 then RamSpeedCheck(s)
           else if k == 4 then GpuCheck(s) else if k == 5 then PsuCheck(s)
           else if k == 6 then CoolerSocketCheck(s).value else if k == 7 then CoolerHeightCheck(s) else []
  {
    RespondIssues(s);
    OfRankSeven(SocketCheck(s), RamTypeCheck(s), RamSpeedCheck(s), GpuCheck(s), PsuCheck(s),
                CoolerSocketCheck(s).value, CoolerHeightCheck(s), k);
  }

  /** Every issue of `issues` whose kind belongs to check `k` is one of that check's issues. */
  lemma KindMembers(s: Slots, i: nat)
    requires Respond(s).Ok? && i < |Respond(s).value.issues|
    ensures var x := Respond(s).value.issues[i]; x in OfRank(Respond(s).value.issues, Rank(x))
  {
    var x := Respond(s).value.issues[i];
    OfRankMembers(Respond(s).value.issues, Rank(x), x);
  }

  /**
   * Socket mismatch is reported exactly when the CPU and the motherboard both
   * resolve, both sockets are truthy and they differ, as one error whose
   * details carry both sockets.
   */
  lemma SocketMismatchRule(s: Slots)
    requires Respond(s).Ok?
    ensures var issues := Respond(s).value.issues;
      && (HasIssue(issues, "cpu", SocketMismatch) <==>
           s.cpu.Some? && s.mb.Some?
           && var cs, ms := SpecGet(s.cpu.value.specifications, "socket", Null), SpecGet(s.mb.value.specifications, "socket", Null);
              Truthy(cs) && Truthy(ms) && !PyEq(cs, ms))
      && forall i :: 0 <= i < |issues| && issues[i].componentType == "cpu" && issues[i].issueType == SocketMismatch ==>
           var cs, ms := SpecGet(s.cpu.value.specifications, "socket", Null), SpecGet(s.mb.value.specifications, "socket", Null);
           issues[i].severity == Error && issues[i].details == Some(map["cpu_socket" := cs, "mb_socket" := ms])
  {
    IssuesOfCheckS(s, 1);
    var issues := Respond(s).value.issues;
    HasIssueOfRank(issues, "cpu", SocketMismatch);
    forall i | 0 <= i < |issues| && issues[i].componentType == "cpu" && issues[i].issueType == SocketMismatch
      ensures issues[i] in SocketCheck(s)
    {
      KindMembers(s, i);
    }
  }

  /** A RAM type mismatch is an error, reported only when the RAM and the motherboard resolve. */
  lemma RamTypeRule(s: Slots)
    requires Respond(s).Ok?
    ensures var issues := Respond(s).value.issues;
      && (HasIssue(issues, "ram", RamTypeMismatch) <==>
           s.ram.Some? && s.mb.Some?
           && var rt, mt := SpecGet(s.ram.value.specifications, "type", Null), SpecGet(s.mb.value.specifications, "ram_type", Null);
              Truthy(rt) && Truthy(mt) && !PyEq(rt, mt))
      && forall i :: 0 <= i < |issues| && issues[i].issueType == RamTypeMismatch ==> issues[i].severity == Error
  {
    IssuesOfCheckS(s, 2);
    var issues := Respond(s).value.issues;
    HasIssueOfRank(issues, "ram", RamTypeMismatch);
    RamTypeCheckRule(s);
    RamTypeErrs(s);
  }

  /** A RAM type issue is always an error. */
  lemma RamTypeErrs(s: Slots)
    requires Respond(s).Ok?
    ensures var issues := Respond(s).value.issues;
      forall i :: 0 <= i < |issues| && issues[i].issueType == RamTypeMismatch ==> issues[i].severity == Error
  {
    var issues := Respond(s).value.issues;
    IssuesOfCheckS(s, 2);
    IssuesOfCheckS(s, 8);
    RamTypeCheckErrs(s);
    SeverityOfRank(issues, RamTypeMismatch, 2, Error);
  }

  /** Check 2 reports only errors, and no other check reports a RAM type mismatch. */
  lemma RamTypeCheckErrs(s: Slots)
    ensures forall x :: x in RamTypeCheck(s) ==> x.severity == Error
    ensures forall c :: KindRank(c, RamTypeMismatch) == 2 || KindRank(c, RamTypeMismatch) == 8
  {
  }

  /** Check 2 on its own: a mismatch error exactly when RAM and board resolve with truthy, differing types. */
  lemma RamTypeCheckRule(s: Slots)
    ensures (exists x :: x in RamTypeCheck(s) && x.componentType == "ram" && x.issueType == RamTypeMismatch) <==>
           s.ram.Some? && s.mb.Some?
           && var rt, mt := SpecGet(s.ram.value.specifications, "type", Null), SpecGet(s.mb.value.specifications, "ram_type", Null);
              Truthy(rt) && Truthy(mt) && !PyEq(rt, mt)
  {
    var r := RamTypeCheck(s);
    if r != [] {
      assert r[0] in r;
    }
  }

  /**
   * RAM faster than the motherboard's maximum is only a warning, and a speed
   * pair that `int()` cannot convert is skipped.
   */
  lemma RamSpeedRule(s: Slots)
    requires Respond(s).Ok?
    ensures var issues := Respond(s).value.issues;
      && (HasIssue(issues, "ram", RamSpeedWarning) <==>
           s.ram.Some? && s.mb.Some?
           && var sp, mx := SpecGet(s.ram.value.specifications, "speed", Null), SpecGet(s.mb.value.specifications, "ram_max_speed", Null);
              Truthy(sp) && Truthy(mx) && PyInt(sp).Ok? && PyInt(mx).Ok? && PyInt(sp).value > PyInt(mx).value)
      && forall i :: 0 <= i < |issues| && issues[i].issueType == RamSpeedWarning ==> issues[i].severity == Warning
  {
    IssuesOfCheckS(s, 3);
    var issues := Respond(s).value.issues;
    HasIssueOfRank(issues, "ram", RamSpeedWarning);
    RamSpeedCheckRule(s);
    RamSpeedWarns(s);
  }

  /** A RAM speed issue is only ever a warning. */
  lemma RamSpeedWarns(s: Slots)
    requires Respond(s).Ok?
    ensures var issues := Respond(s).value.issues;
      forall i :: 0 <= i < |issues| && issues[i].issueType == RamSpeedWarning ==> issues[i].severity == Warning
  {
    var issues := Respond(s).value.issues;
    IssuesOfCheckS(s, 3);
    IssuesOfCheckS(s, 8);
    RamSpeedCheckWarns(s);
    SeverityOfRank(issues, RamSpeedWarning, 3, Warning);
  }

  /** Check 3 reports only warnings, and no other check reports a RAM speed issue. */
  lemma RamSpeedCheckWarns(s: Slots)
    ensures forall x :: x in RamSpeedCheck(s) ==> x.severity == Warning
    ensures forall c :: KindRank(c, RamSpeedWarning) == 3 || KindRank(c, RamSpeedWarning) == 8
  {
  }

  /**
   * When an issue type belongs to check `k` or to no check, and check `k` gives
   * all its issues one severity, every issue of that type in the list has it.
   */
  lemma SeverityOfRank(issues: seq<Issue>, t: IssueType, k: nat, sev: Severity)
    requires forall c :: KindRank(c, t) == k || KindRank(c, t) == 8
    requires forall x :: x in OfRank(issues, k) ==> x.severity == sev
    requires OfRank(issues, 8) == []
    ensures forall i :: 0 <= i < |issues| && issues[i].issueType == t ==> issues[i].severity == sev
  {
    forall i | 0 <= i < |issues| && issues[i].issueType == t ensures issues[i].severity == sev {
      OfRankMembers(issues, Rank(issues[i]), issues[i]);
    }
  }

  /** Check 3 on its own: it warns exactly when RAM and board resolve and the speed exceeds the board's maximum. */
  lemma RamSpeedCheckRule(s: Slots)
    ensures (exists x :: x in RamSpeedCheck(s) && x.componentType == "ram" && x.issueType == RamSpeedWarning) <==>
           s.ram.Some? && s.mb.Some?
           && var sp, mx := SpecGet(s.ram.value.specifications, "speed", Null), SpecGet(s.mb.value.specifications, "ram_max_speed", Null);
              Truthy(sp) && Truthy(mx) && PyInt(sp).Ok? && PyInt(mx).Ok? && PyInt(sp).value > PyInt(mx).value
  {
    var r := RamSpeedCheck(s);
    if r != [] {
      assert r[0] in r;
    }
  }

  /** A GPU longer than the case allows is an error; a falsy or unparseable length skips the check. */
  lemma GpuLengthRule(s: Slots)
    requires Respond(s).Ok?
    ensures HasIssue(Respond(s).value.issues, "gpu", FormFactor) <==>
        s.gpu.Some? && s.case_.Some?
        && var l, m := SpecGet(s.gpu.value.specifications, "length", Null), SpecGet(s.case_.value.specifications, "max_gpu_length", Null);
           Truthy(l) && Truthy(m) && PyFloat(l).Ok? && PyFloat(m).Ok? && PyFloat(l).value > PyFloat(m).value
  {
    IssuesOfCheckS(s, 4);
    HasIssueOfRank(Respond(s).value.issues, "gpu", FormFactor);
    GpuCheckRule(s);
  }

  /** Check 4 on its own: a too long GPU exactly when GPU and case resolve and the length exceeds the maximum. */
  lemma GpuCheckRule(s: Slots)
    ensures (exists x :: x in GpuCheck(s) && x.componentType == "gpu" && x.issueType == FormFactor) <==>
        s.gpu.Some? && s.case_.Some?
        && var l, m := SpecGet(s.gpu.value.specifications, "length", Null), SpecGet(s.case_.value.specifications, "max_gpu_length", Null);
           Truthy(l) && Truthy(m) && PyFloat(l).Ok? && PyFloat(m).Ok? && PyFloat(l).value > PyFloat(m).value
  {
    var r := GpuCheck(s);
    if r != [] {
      assert r[0] in r;
    }
  }

  /** `float(psu.specifications.get("wattage", 0))` for the resolved PSU. */
  function WattageOf(s: Slots): Result<real> {
    if s.psu.Some? then PyFloat(SpecGet(s.psu.value.specifications, "wattage", Int(0))) else Raised(TypeError)
  }

  /**
   * The PSU rule: below the total draw is an insufficient_power error, below
   * 1.2 times the total a low_power_margin warning, and there is at most one
   * PSU issue; all of it only for a resolved PSU whose wattage converts.
   */
  lemma PsuRule(s: Slots)
    requires Respond(s).Ok?
    ensures var issues, t, w := Respond(s).value.issues, TotalPower(s), WattageOf(s);
      && |OfRank(issues, 5)| <= 1
      && (HasIssue(issues, "psu", InsufficientPower) <==> s.psu.Some? && w.Ok? && w.value < t)
      && (HasIssue(issues, "psu", LowPowerMargin) <==> s.psu.Some? && w.Ok? && t <= w.value < t * 1.2)
  {
    IssuesOfCheckS(s, 5);
    var issues := Respond(s).value.issues;
    HasIssueOfRank(issues, "psu", InsufficientPower);
    HasIssueOfRank(issues, "psu", LowPowerMargin);
    PsuCheckRule(s);
  }

  /** Check 5 on its own, for the resolved PSU and the accumulated draw. */
  lemma PsuCheckRule(s: Slots)
    ensures var r, t, w := PsuCheck(s), TotalPower(s), WattageOf(s);
      && ((exists x :: x in r && x.componentType == "psu" && x.issueType == InsufficientPower) <==> s.psu.Some? && w.Ok? && w.value < t)
      && ((exists x :: x in r && x.componentType == "psu" && x.issueType == LowPowerMargin) <==> s.psu.Some? && w.Ok? && t <= w.value < t * 1.2)
  {
    var r := PsuCheck(s);
    if r != [] {
      assert r[0] in r;
    }
  }

  /**
   * The recommended wattage is 1.2 times the total, reported only when a PSU
   * with a convertible wattage resolves and the total is positive.
   */
  lemma RecommendedRule(s: Slots)
    requires Respond(s).Ok?
    ensures var rec, t := Respond(s).value.recommendedPsuWattage, TotalPower(s);
      && (rec.Some? <==> s.psu.Some? && WattageOf(s).Ok? && t > 0.0)
      && (rec.Some? ==> rec.value == t * 1.2)
  {
    RespondFigures(s);
  }

  /** A PSU without a `wattage` entry is treated as a 0 W supply. */
  lemma MissingWattageIsZero(s: Slots)
    requires Respond(s).Ok?
    requires s.psu.Some? && "wattage" !in s.psu.value.specifications
    ensures TotalPower(s) > 0.0 ==> HasIssue(Respond(s).value.issues, "psu", InsufficientPower)
    ensures TotalPower(s) > 0.0 ==> !Respond(s).value.isValid
  {
    PsuRule(s);
    RespondFigures(s);
    assert WattageOf(s) == Ok(0.0);
    if TotalPower(s) > 0.0 {
      IssuesOfCheckS(s, 5);
      InsufficientIsError(s);
      InsufficientMakesInvalid(Respond(s).value.issues, PsuCheck(s));
    }
  }

  /** A list holding an insufficient-power issue, when check 5 only ever reports that as an error, has an error. */
  lemma InsufficientMakesInvalid(issues: seq<Issue>, check: seq<Issue>)
    requires OfRank(issues, 5) == check
    requires forall x :: x in check && x.issueType == InsufficientPower ==> x.severity == Error
    requires HasIssue(issues, "psu", InsufficientPower)
    ensures !NoErrors(issues)
  {
    var i :| 0 <= i < |issues| && issues[i].componentType == "psu" && issues[i].issueType == InsufficientPower;
    OfRankMembers(issues, 5, issues[i]);
  }

  /** An insufficient-power issue of check 5 is an error. */
  lemma InsufficientIsError(s: Slots)
    ensures forall x :: x in PsuCheck(s) && x.issueType == InsufficientPower ==> x.severity == Error
  {
  }

  /**
   * The cooler socket check raises exactly when the cooler and the CPU
   * resolve, both sockets are truthy and the cooler's socket value is one that
   * `in` refuses: a number, or a dict probed with an unhashable CPU socket.
   */
  lemma CoolerSocketRaises(s: Slots)
    ensures var cs := if s.cpu.Some? then SpecGet(s.cpu.value.specifications, "socket", Null) else Null;
      var sockets := if s.cooler.Some? then SpecGet(s.cooler.value.specifications, "socket", Arr([])) else Null;
      Respond(s).Raised? <==>
        s.cooler.Some? && s.cpu.Some? && Truthy(cs) && Truthy(sockets)
        && (IsNumber(sockets) || (sockets.Obj? && !Hashable(cs)))
  {
    RespondRaises(s);
  }

  /** What check 6 reports for one cooler and one CPU, when it does not raise. */
  lemma CoolerSocketIssuesRule(cooler: Specs, cpu: Specs)
    requires CoolerSocketIssues(cooler, cpu).Ok?
    ensures var r := CoolerSocketIssues(cooler, cpu).value;
      var cs, sockets := SpecGet(cpu, "socket", Null), SpecGet(cooler, "socket", Arr([]));
      && (forall x :: x in r ==> x.componentType == "cooler" && x.issueType == SocketMismatch)
      && (r != [] <==>
            Truthy(cs) && Truthy(sockets)
            && match sockets
               case Str(_) => !PyEq(cs, sockets)
               case Arr(items) => !exists i :: 0 <= i < |items| && PyEq(cs, items[i])
               case Obj(fields) => !(cs.Str? && Get(fields, cs.str).Some?)
               case _ => false)
  {
    var sockets := SpecGet(cooler, "socket", Arr([]));
    if sockets.Str? {
      var cs := SpecGet(cpu, "socket", Null);
      var wrapped := [sockets];
      assert (exists i :: 0 <= i < |wrapped| && PyEq(cs, wrapped[i])) <==> PyEq(cs, sockets) by {
        assert wrapped[0] == sockets;
      }
    }
  }

  /**
   * A cooler socket mismatch is reported when the cooler and the CPU resolve,
   * both sockets are truthy and the CPU socket is not among the cooler's; a
   * single string socket is a one-element list.
   */
  lemma CoolerSocketRule(s: Slots)
    requires Respond(s).Ok?
    ensures var cs := if s.cpu.Some? then SpecGet(s.cpu.value.specifications, "socket", Null) else Null;
      var sockets := if s.cooler.Some? then SpecGet(s.cooler.value.specifications, "socket", Arr([])) else Null;
      HasIssue(Respond(s).value.issues, "cooler", SocketMismatch) <==>
        s.cooler.Some? && s.cpu.Some? && Truthy(cs) && Truthy(sockets)
        && match sockets
           case Str(_) => !PyEq(cs, sockets)
           case Arr(items) => !exists i :: 0 <= i < |items| && PyEq(cs, items[i])
           case Obj(fields) => !(cs.Str? && Get(fields, cs.str).Some?)
           case _ => false
  {
    IssuesOfCheckS(s, 6);
    RespondRaises(s);
    HasIssueOfRank(Respond(s).value.issues, "cooler", SocketMismatch);
    if s.cooler.Some? && s.cpu.Some? {
      CoolerSocketIssuesRule(s.cooler.value.specifications, s.cpu.value.specifications);
      var r := CoolerSocketCheck(s).value;
      if r != [] {
        assert r[0] in r;
      }
    }
  }

  /** The cooler height check needs a resolved CPU as well as the cooler and the case. */
  lemma CoolerHeightRule(s: Slots)
    requires Respond(s).Ok?
    ensures HasIssue(Respond(s).value.issues, "cooler", FormFactor) <==>
        s.cooler.Some? && s.cpu.Some? && s.case_.Some?
        && var h, m := SpecGet(s.cooler.value.specifications, "height", Null), SpecGet(s.case_.value.specifications, "max_cooler_height", Null);
           Truthy(h) && Truthy(m) && PyFloat(h).Ok? && PyFloat(m).Ok? && PyFloat(h).value > PyFloat(m).value
  {
    IssuesOfCheckS(s, 7);
    HasIssueOfRank(Respond(s).value.issues, "cooler", FormFactor);
    CoolerHeightCheckRule(s);
  }

  /** Check 7 on its own: it reports a too tall cooler exactly when all three parts resolve and the height exceeds the maximum. */
  lemma CoolerHeightCheckRule(s: Slots)
    ensures (exists x :: x in CoolerHeightCheck(s) && x.componentType == "cooler" && x.issueType == FormFactor) <==>
        s.cooler.Some? && s.cpu.Some? && s.case_.Some?
        && var h, m := SpecGet(s.cooler.value.specifications, "height", Null), SpecGet(s.case_.value.specifications, "max_cooler_height", Null);
           Truthy(h) && Truthy(m) && PyFloat(h).Ok? && PyFloat(m).Ok? && PyFloat(h).value > PyFloat(m).value
  {
    var r := CoolerHeightCheck(s);
    if r != [] {
      assert r[0] in r;
    }
  }

  // ----------------------------------------------------------- worked cases

  function Part(kind: ProductType, specs: Specs): Product {
    Product("id", "name", kind, None, 0.0, specs, true, None, None, None, None)
  }

  const NoSlots := Slots(None, None, None, None, None, None, None)

  /** An AM4 CPU on an AM5 board: one cpu / socket_mismatch error. */
  lemma SocketMismatchCase()
    ensures var s := NoSlots.(cpu := Some(Part(Cpu, map["socket" := Str("AM4")])),
                              mb := Some(Part(Motherboard, map["socket" := Str("AM5")])));
      && Respond(s).Ok?
      && |Respond(s).value.issues| == 1
      && Respond(s).value.issues[0].componentType == "cpu"
      && Respond(s).value.issues[0].issueType == SocketMismatch
      && Respond(s).value.issues[0].severity == Error
      && !Respond(s).value.isValid
  {
    var s := NoSlots.(cpu := Some(Part(Cpu, map["socket" := Str("AM4")])),
                      mb := Some(Part(Motherboard, map["socket" := Str("AM5")])));
    assert !PyEq(Str("AM4"), Str("AM5"));
    RespondFigures(s);
  }

  /** The slots of a 65 W CPU on a board with a 160 W GPU, and optionally a PSU. */
  function PowerCase(psu: Option<Product>): Slots {
    NoSlots.(cpu := Some(Part(Cpu, map["tdp" := Int(65)])),
             mb := Some(Part(Motherboard, map[])),
             gpu := Some(Part(Gpu, map["power_consumption" := Int(160)])),
             psu := psu)
  }

  /** Without a PSU the total is 225 W and, unlike with one, no recommended wattage is reported. */
  lemma PowerWithoutPsuCase()
    ensures Respond(PowerCase(None)) == Ok(ValidationResponse(true, [], Some(225.0), None, None))
  {
    assert TotalPower(PowerCase(None)) == 225.0;
  }

  /** A 250 W PSU for 225 W: one low_power_margin warning, still valid, 270 W recommended. */
  lemma LowMarginCase()
    ensures var r := Respond(PowerCase(Some(Part(Psu, map["wattage" := Int(250)]))));
      && r.Ok? && |r.value.issues| == 1 && r.value.issues[0].issueType == LowPowerMargin
      && r.value.issues[0].severity == Warning
      && r.value.isValid && r.value.recommendedPsuWattage == Some(270.0)
  {
    var s := PowerCase(Some(Part(Psu, map["wattage" := Int(250)])));
    assert TotalPower(s) == 225.0;
    RespondFigures(s);
  }

  /** A 200 W PSU for 225 W: one insufficient_power error, invalid. */
  lemma InsufficientCase()
    ensures var r := Respond(PowerCase(Some(Part(Psu, map["wattage" := Int(200)]))));
      && r.Ok? && |r.value.issues| == 1 && r.value.issues[0].issueType == InsufficientPower
      && !r.value.isValid
  {
    var s := PowerCase(Some(Part(Psu, map["wattage" := Int(200)])));
    assert TotalPower(s) == 225.0;
    RespondFigures(s);
  }

  /** A 350 mm GPU in a case for 300 mm: one gpu / form_factor error. */
  lemma GpuTooLongCase()
    ensures var s := NoSlots.(gpu := Some(Part(Gpu, map["length" := Int(350)])),
                              case_ := Some(Part(Case, map["max_gpu_length" := Int(300)])));
      && Respond(s).Ok? && |Respond(s).value.issues| == 1
      && Respond(s).value.issues[0].componentType == "gpu" && Respond(s).value.issues[0].issueType == FormFactor
      && !Respond(s).value.isValid
  {
    var s := NoSlots.(gpu := Some(Part(Gpu, map["length" := Int(350)])),
                      case_ := Some(Part(Case, map["max_gpu_length" := Int(300)])));
    RespondFigures(s);
  }
}
