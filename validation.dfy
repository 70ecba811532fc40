/**
 * The configuration compatibility validator: a slot -> product-id map is
 * checked against a catalog snapshot, producing an ordered list of issues, a
 * validity flag, the total power draw and a recommended PSU wattage.
 *
 * `Validate` is the specification, assembled from one function per check;
 * `ValidateConfiguration` is the validator as the program runs it, appending
 * to `issues` and accumulating `totalPower` step by step.
 */
module Validation {
  import opened Wrappers
  import opened Json
  import opened Models

  datatype Severity = Error | Warning

  datatype IssueType =
    | MissingComponents
    | SocketMismatch
    | RamTypeMismatch
    | RamSpeedWarning
    | FormFactor
    | InsufficientPower
    | LowPowerMargin

  function IssueTypeName(t: IssueType): string {
    match t
    case MissingComponents => "missing_components"
    case SocketMismatch => "socket_mismatch"
    case RamTypeMismatch => "ram_type_mismatch"
    case RamSpeedWarning => "ram_speed_warning"
    case FormFactor => "form_factor"
    case InsufficientPower => "insufficient_power"
    case LowPowerMargin => "low_power_margin"
  }

  /** The message of an issue, with the values it interpolates. */
  datatype Message =
    | NoComponents
    | CpuSocketMismatch(cpuSocket: Json, mbSocket: Json)
    | RamTypeMismatchMsg(ramType: Json, mbRamType: Json)
    | RamSpeedExceeds(speed: Json, maxSpeed: Json)
    | GpuTooLong(length: Json, maxLength: Json)
    | PsuInsufficient(wattage: real, required: real)
    | PsuLowMargin(psuWattage: real, recommended: real)
    | CoolerSocketUnsupported(socket: Json)
    | CoolerTooTall(height: Json, maxHeight: Json)

  /**
   * The message text; `show` is Python's `str()` of a value and `fmt0` its
   * `:.0f` rendering of a float, which are outside this model.
   */
  function MessageText(m: Message, show: Json -> string, fmt0: real -> string): string {
    match m
    case NoComponents => "No components provided"
    case CpuSocketMismatch(c, b) =>
      "CPU socket (" + show(c) + ") does not match motherboard socket (" + show(b) + ")"
    case RamTypeMismatchMsg(t, b) =>
      "RAM type (" + show(t) + ") does not match motherboard RAM type (" + show(b) + ")"
    case RamSpeedExceeds(s, b) =>
      "RAM speed (" + show(s) + " MHz) exceeds motherboard max (" + show(b) + " MHz)"
    case GpuTooLong(l, b) => "GPU length (" + show(l) + " mm) exceeds case max (" + show(b) + " mm)"
    case PsuInsufficient(w, t) =>
      "PSU wattage (" + show(Real(w)) + "W) is insufficient. Required: ~" + fmt0(t) + "W"
    case PsuLowMargin(w, rec) =>
      "PSU wattage (" + show(Real(w)) + "W) is close to recommended (" + fmt0(rec) + "W)"
    case CoolerSocketUnsupported(c) => "Cooler does not support CPU socket (" + show(c) + ")"
    case CoolerTooTall(h, b) => "Cooler height (" + show(h) + " mm) exceeds case max (" + show(b) + " mm)"
  }

  datatype Issue = Issue(
    componentType: string,
    issueType: IssueType,
    severity: Severity,
    message: Message,
    details: Option<map<string, Json>>)

  datatype ValidationResponse = ValidationResponse(
    isValid: bool,
    issues: seq<Issue>,
    totalPowerConsumption: Option<real>,
    recommendedPsuWattage: Option<real>,
    performanceScore: Option<real>)

  /** The 20% PSU headroom. */
  const Headroom: real := 1.2

  const NoComponentsIssue := Issue("general", MissingComponents, Error, NoComponents, None)

  /** The response when no component id is given. */
  const EmptyResponse := ValidationResponse(false, [NoComponentsIssue], None, None, None)

  // ---------------------------------------------------------------- resolution

  /** The ids the validator fetches: the non-empty values of the slot map. */
  function RequestedIds(components: map<string, string>): set<string> {
    set k | k in components && components[k] != "" :: components[k]
  }

  /** The products the fetch returns: the catalog restricted to the requested ids. */
  function Fetched(components: map<string, string>, catalog: map<string, Product>): map<string, Product> {
    map id | id in catalog && id in RequestedIds(components) :: catalog[id]
  }

  /**
   * `components.get(key)`; an absent key reads as "", since the validator only
   * tests each id for truth before looking it up and `None` and "" are both false.
   */
  function SlotId(components: map<string, string>, key: string): string {
    if key in components then components[key] else ""
  }

  /** `products.get(id)`. */
  function FindProduct(products: map<string, Product>, id: string): Option<Product> {
    if id in products then Some(products[id]) else None
  }

  /** `if id: p = products.get(id)`: the product of a non-empty id that resolves. */
  function Resolve(products: map<string, Product>, id: string): Option<Product> {
    if id != "" then FindProduct(products, id) else None
  }

  /** The product in slot `key`, if its id is non-empty and resolves in `products`. */
  function Lookup(components: map<string, string>, products: map<string, Product>, key: string): Option<Product> {
    Resolve(products, SlotId(components, key))
  }

  /** Looking a slot up in the fetched products is looking it up in the catalog. */
  lemma FetchedLookup(components: map<string, string>, catalog: map<string, Product>, key: string)
    ensures Lookup(components, Fetched(components, catalog), key) == Lookup(components, catalog, key)
  {
    var id := SlotId(components, key);
    if id != "" {
      assert id in RequestedIds(components);
    }
  }

  datatype Slots = Slots(
    cpu: Option<Product>,
    mb: Option<Product>,
    gpu: Option<Product>,
    ram: Option<Product>,
    psu: Option<Product>,
    case_: Option<Product>,
    cooler: Option<Product>)

  function ResolveSlots(components: map<string, string>, products: map<string, Product>): Slots {
    Slots(
      Lookup(components, products, "cpu"),
      Lookup(components, products, "motherboard"),
      Lookup(components, products, "gpu"),
      Lookup(components, products, "ram"),
      Lookup(components, products, "psu"),
      Lookup(components, products, "case"),
      Lookup(components, products, "cooler"))
  }

  lemma FetchedSlots(components: map<string, string>, catalog: map<string, Product>)
    ensures ResolveSlots(components, Fetched(components, catalog)) == ResolveSlots(components, catalog)
  {
    FetchedLookup(components, catalog, "cpu");
    FetchedLookup(components, catalog, "motherboard");
    FetchedLookup(components, catalog, "gpu");
    FetchedLookup(components, catalog, "ram");
    FetchedLookup(components, catalog, "psu");
    FetchedLookup(components, catalog, "case");
    FetchedLookup(components, catalog, "cooler");
  }

  // ------------------------------------------------------------ issue ordering

  /** The position of a kind of issue's check in the validator's fixed order (8 for none). */
  function KindRank(component: string, t: IssueType): nat {
    match t
    case MissingComponents => if component == "general" then 0 else 8
    case SocketMismatch => if component == "cpu" then 1 else if component == "cooler" then 6 else 8
    case RamTypeMismatch => if component == "ram" then 2 else 8
    case RamSpeedWarning => if component == "ram" then 3 else 8
    case FormFactor => if component == "gpu" then 4 else if component == "cooler" then 7 else 8
    case InsufficientPower => if component == "psu" then 5 else 8
    case LowPowerMargin => if component == "psu" then 5 else 8
  }

  function Rank(i: Issue): nat {
    KindRank(i.componentType, i.issueType)
  }

  predicate AllOfRank(s: seq<Issue>, k: nat) {
    forall i :: 0 <= i < |s| ==> Rank(s[i]) == k
  }

  /** The issues of `s` produced by check `k`, in order. */
  function OfRank(s: seq<Issue>, k: nat): seq<Issue> {
    if s == [] then [] else (if Rank(s[0]) == k then [s[0]] else []) + OfRank(s[1..], k)
  }

  lemma {:induction false} OfRankConcat(a: seq<Issue>, b: seq<Issue>, k: nat)
    ensures OfRank(a + b, k) == OfRank(a, k) + OfRank(b, k)
  {
    if a != [] {
      assert (a + b)[1..] == a[1..] + b;
      OfRankConcat(a[1..], b, k);
    } else {
      assert a + b == b;
    }
  }

  lemma {:induction false} OfRankUniform(s: seq<Issue>, j: nat, k: nat)
    requires AllOfRank(s, j)
    ensures OfRank(s, k) == if j == k then s else []
  {
    if s != [] {
      OfRankUniform(s[1..], j, k);
    }
  }

  predicate HasIssue(s: seq<Issue>, component: string, t: IssueType) {
    exists i :: 0 <= i < |s| && s[i].componentType == component && s[i].issueType == t
  }

  predicate NoErrors(s: seq<Issue>) {
    forall i :: 0 <= i < |s| ==> s[i].severity != Error
  }

  // -------------------------------------------------------------------- checks

  /** Check 1: CPU and motherboard sockets, both truthy and unequal. */
  function SocketIssues(cpu: Specs, mb: Specs): (r: seq<Issue>)
    ensures AllOfRank(r, 1) && |r| <= 1
  {
    var cs := SpecGet(cpu, "socket", Null);
    var ms := SpecGet(mb, "socket", Null);
    if Truthy(cs) && Truthy(ms) && !PyEq(cs, ms) then
      [Issue("cpu", SocketMismatch, Error, CpuSocketMismatch(cs, ms),
             Some(map["cpu_socket" := cs, "mb_socket" := ms]))]
    else []
  }

  /** `specs.get(key, 0)` added to the total when it is an int or a float. */
  function PowerOf(specs: Specs, key: string): real {
    var v := SpecGet(specs, key, Int(0));
    if IsNumber(v) then NumberValue(v) else 0.0
  }

  /** Check 2: RAM type against the motherboard's RAM type. */
  function RamTypeIssues(ram: Specs, mb: Specs): (r: seq<Issue>)
    ensures AllOfRank(r, 2) && |r| <= 1
  {
    var rt := SpecGet(ram, "type", Null);
    var mt := SpecGet(mb, "ram_type", Null);
    if Truthy(rt) && Truthy(mt) && !PyEq(rt, mt) then
      [Issue("ram", RamTypeMismatch, Error, RamTypeMismatchMsg(rt, mt),
             Some(map["ram_type" := rt, "mb_ram_type" := mt]))]
    else []
  }

  /** `int(a) > int(b)`, or `false` when either conversion raises (the check is skipped). */
  function IntGreater(a: Json, b: Json): bool {
    match (PyInt(a), PyInt(b))
    case (Ok(x), Ok(y)) => x > y
    case _ => false
  }

  /** `float(a) > float(b)`, or `false` when either conversion raises. */
  function FloatGreater(a: Json, b: Json): bool {
    match (PyFloat(a), PyFloat(b))
    case (Ok(x), Ok(y)) => x > y
    case _ => false
  }

  /** Check 3: RAM speed above the motherboard's maximum, a warning only. */
  function RamSpeedIssues(ram: Specs, mb: Specs): (r: seq<Issue>)
    ensures AllOfRank(r, 3) && |r| <= 1
  {
    var s := SpecGet(ram, "speed", Null);
    var m := SpecGet(mb, "ram_max_speed", Null);
    if Truthy(s) && Truthy(m) && IntGreater(s, m) then
      [Issue("ram", RamSpeedWarning, Warning, RamSpeedExceeds(s, m), None)]
    else []
  }

  /** Check 4: GPU length against the case's maximum. */
  function GpuCaseIssues(gpu: Specs, case_: Specs): (r: seq<Issue>)
    ensures AllOfRank(r, 4) && |r| <= 1
  {
    var l := SpecGet(gpu, "length", Null);
    var m := SpecGet(case_, "max_gpu_length", Null);
    if Truthy(l) && Truthy(m) && FloatGreater(l, m) then
      [Issue("gpu", FormFactor, Error, GpuTooLong(l, m), None)]
    else []
  }

  /** `float(specs.get("wattage", 0))`, or `None` when it raises (the PSU check is skipped). */
  function PsuWattage(psu: Specs): Option<real> {
    match PyFloat(SpecGet(psu, "wattage", Int(0)))
    case Ok(w) => Some(w)
    case Raised(_) => None
  }

  /** Check 5: PSU wattage against the total draw and the recommended wattage. */
  function PsuIssues(w: real, total: real): (r: seq<Issue>)
    ensures AllOfRank(r, 5) && |r| <= 1
  {
    var recommended := total * Headroom;
    if w < total then
      [Issue("psu", InsufficientPower, Error, PsuInsufficient(w, total),
             Some(map["psu_wattage" := Real(w), "required" := Real(total)]))]
    else if w < recommended then
      [Issue("psu", LowPowerMargin, Warning, PsuLowMargin(w, recommended), None)]
    else []
  }

  /** The cooler's supported sockets: `get("socket", [])`, a string wrapped in a list. */
  function CoolerSockets(cooler: Specs): Json {
    var s := SpecGet(cooler, "socket", Arr([]));
    if s.Str? then Arr([s]) else s
  }

  /**
   * Check 6: the CPU socket among the cooler's sockets. The membership test is
   * not guarded, so a container `in` refuses (a number, for instance) raises
   * out of the validator.
   */
  function CoolerSocketIssues(cooler: Specs, cpu: Specs): (r: Result<seq<Issue>>)
    ensures r.Ok? ==> AllOfRank(r.value, 6) && |r.value| <= 1
  {
    var cs := SpecGet(cpu, "socket", Null);
    if Truthy(cs) && Truthy(SpecGet(cooler, "socket", Arr([]))) then
      match PyIn(cs, CoolerSockets(cooler))
      case Ok(found) =>
        Ok(if found then [] else [Issue("cooler", SocketMismatch, Error, CoolerSocketUnsupported(cs), None)])
      case Raised(e) => Raised(e)
    else Ok([])
  }

  /** Check 7: cooler height against the case's maximum. */
  function CoolerHeightIssues(cooler: Specs, case_: Specs): (r: seq<Issue>)
    ensures AllOfRank(r, 7) && |r| <= 1
  {
    var h := SpecGet(cooler, "height", Null);
    var m := SpecGet(case_, "max_cooler_height", Null);
    if Truthy(h) && Truthy(m) && FloatGreater(h, m) then
      [Issue("cooler", FormFactor, Error, CoolerTooTall(h, m), None)]
    else []
  }

  // ------------------------------------------------ checks on resolved slots

  /** Check 1 runs only when the CPU and the motherboard both resolve. */
  function SocketPart(cpu: Option<Product>, mb: Option<Product>): seq<Issue> {
    if cpu.Some? && mb.Some? then SocketIssues(cpu.value.specifications, mb.value.specifications) else []
  }

  /** The CPU's TDP, counted only inside the CPU + motherboard branch. */
  function CpuPower(cpu: Option<Product>, mb: Option<Product>): real {
    if cpu.Some? && mb.Some? then PowerOf(cpu.value.specifications, "tdp") else 0.0
  }

  function RamPart(ram: Option<Product>, mb: Option<Product>): seq<Issue> {
    if ram.Some? && mb.Some? then
      RamTypeIssues(ram.value.specifications, mb.value.specifications)
      + RamSpeedIssues(ram.value.specifications, mb.value.specifications)
    else []
  }

  function GpuPower(gpu: Option<Product>): real {
    if gpu.Some? then PowerOf(gpu.value.specifications, "power_consumption") else 0.0
  }

  /** Check 4 sits inside the GPU branch. */
  function GpuCasePart(gpu: Option<Product>, case_: Option<Product>): seq<Issue> {
    if gpu.Some? && case_.Some? then GpuCaseIssues(gpu.value.specifications, case_.value.specifications)
    else []
  }

  /** The PSU's wattage when a PSU resolves and its wattage converts. */
  function PsuPart(psu: Option<Product>): Option<real> {
    if psu.Some? then PsuWattage(psu.value.specifications) else None
  }

  function PsuPartIssues(psu: Option<Product>, total: real): seq<Issue> {
    match PsuPart(psu)
    case Some(w) => PsuIssues(w, total)
    case None => []
  }

  /** `recommended_psu`: set only inside the PSU check, 0.0 otherwise. */
  function Recommended(psu: Option<Product>, total: real): real {
    if PsuPart(psu).Some? then total * Headroom else 0.0
  }

  /** Checks 6 and 7, which run only when both the cooler and the CPU resolve. */
  function CoolerPart(cooler: Option<Product>, cpu: Option<Product>, case_: Option<Product>): (r: Result<seq<Issue>>)
    ensures r.Ok? ==> forall i :: 0 <= i < |r.value| ==> 6 <= Rank(r.value[i]) <= 7
  {
    if cooler.Some? && cpu.Some? then
      match CoolerSocketIssues(cooler.value.specifications, cpu.value.specifications)
      case Raised(e) => Raised(e)
      case Ok(socket) =>
        Ok(socket + if case_.Some? then CoolerHeightIssues(cooler.value.specifications, case_.value.specifications)
                    else [])
    else Ok([])
  }

  function TotalPower(s: Slots): real {
    CpuPower(s.cpu, s.mb) + GpuPower(s.gpu)
  }

  /** The issues of checks 1 to 5, in check order. */
  function IssuesBeforeCooler(s: Slots): seq<Issue> {
    SocketPart(s.cpu, s.mb) + RamPart(s.ram, s.mb) + GpuCasePart(s.gpu, s.case_) + PsuPartIssues(s.psu, TotalPower(s))
  }

  /** The value reported for an accumulator: present only when positive. */
  function Positive(x: real): (r: Option<real>)
    ensures r.Some? <==> x > 0.0
    ensures r.Some? ==> r.value == x
  {
    if x > 0.0 then Some(x) else None
  }

  /** The response for a non-empty request, from the resolved slots. */
  function Respond(s: Slots): Result<ValidationResponse> {
    match CoolerPart(s.cooler, s.cpu, s.case_)
    case Raised(e) => Raised(e)
    case Ok(cooler) =>
      var issues := IssuesBeforeCooler(s) + cooler;
      Ok(ValidationResponse(NoErrors(issues), issues, Positive(TotalPower(s)),
                            Positive(Recommended(s.psu, TotalPower(s))), None))
  }

  /** The validator's specification. */
  function Validate(components: map<string, string>, catalog: map<string, Product>): Result<ValidationResponse> {
    if RequestedIds(components) == {} then Ok(EmptyResponse)
    else Respond(ResolveSlots(components, Fetched(components, catalog)))
  }

  // --------------------------------------------------------------- the methods

  /** Section 1: socket match and CPU power, when the CPU and the motherboard resolve. */
  method CheckCpuMotherboard(products: map<string, Product>, cpuId: string, motherboardId: string,
                             issues: seq<Issue>, totalPower: real)
    returns (issues': seq<Issue>, totalPower': real)
    ensures issues' == issues + SocketPart(Resolve(products, cpuId), Resolve(products, motherboardId))
    ensures totalPower' == totalPower + CpuPower(Resolve(products, cpuId), Resolve(products, motherboardId))
  {
    issues', totalPower' := issues, totalPower;
    if cpuId != "" && motherboardId != "" {
      var cpu := FindProduct(products, cpuId);
      var mb := FindProduct(products, motherboardId);
      if cpu.Some? && mb.Some? {
        var cpuSocket := SpecGet(cpu.value.specifications, "socket", Null);
        var mbSocket := SpecGet(mb.value.specifications, "socket", Null);
        if Truthy(cpuSocket) && Truthy(mbSocket) && !PyEq(cpuSocket, mbSocket) {
          issues' := issues' + [Issue("cpu", SocketMismatch, Error, CpuSocketMismatch(cpuSocket, mbSocket),
                                      Some(map["cpu_socket" := cpuSocket, "mb_socket" := mbSocket]))];
        }
        var cpuTdp := SpecGet(cpu.value.specifications, "tdp", Int(0));
        if IsNumber(cpuTdp) {
          totalPower' := totalPower' + NumberValue(cpuTdp);
        }
      }
    }
  }

  /** Section 2: RAM type and speed, when the RAM and the motherboard resolve. */
  method CheckRam(products: map<string, Product>, ramId: string, motherboardId: string, issues: seq<Issue>)
    returns (issues': seq<Issue>)
    ensures issues' == issues + RamPart(Resolve(products, ramId), Resolve(products, motherboardId))
  {
    issues' := issues;
    if ramId != "" && motherboardId != "" {
      var ram := FindProduct(products, ramId);
      var mb := FindProduct(products, motherboardId);
      if ram.Some? && mb.Some? {
        var ramType := SpecGet(ram.value.specifications, "type", Null);
        var mbRamType := SpecGet(mb.value.specifications, "ram_type", Null);
        if Truthy(ramType) && Truthy(mbRamType) && !PyEq(ramType, mbRamType) {
          issues' := issues' + [Issue("ram", RamTypeMismatch, Error, RamTypeMismatchMsg(ramType, mbRamType),
                                      Some(map["ram_type" := ramType, "mb_ram_type" := mbRamType]))];
        }
        var ramSpeed := SpecGet(ram.value.specifications, "speed", Null);
        var mbMaxSpeed := SpecGet(mb.value.specifications, "ram_max_speed", Null);
        if Truthy(ramSpeed) && Truthy(mbMaxSpeed) {
          var a := PyInt(ramSpeed);
          var b := PyInt(mbMaxSpeed);
          if a.Ok? && b.Ok? && a.value > b.value {
            issues' := issues' + [Issue("ram", RamSpeedWarning, Warning, RamSpeedExceeds(ramSpeed, mbMaxSpeed), None)];
          }
        }
      }
    }
  }

  /** Section 3: GPU power, and GPU length when a case resolves too. */
  method CheckGpu(products: map<string, Product>, gpuId: string, caseId: string,
                  issues: seq<Issue>, totalPower: real)
    returns (issues': seq<Issue>, totalPower': real)
    ensures issues' == issues + GpuCasePart(Resolve(products, gpuId), Resolve(products, caseId))
    ensures totalPower' == totalPower + GpuPower(Resolve(products, gpuId))
  {
    issues', totalPower' := issues, totalPower;
    if gpuId != "" {
      var gpu := FindProduct(products, gpuId);
      if gpu.Some? {
        var gpuPower := SpecGet(gpu.value.specifications, "power_consumption", Int(0));
        if IsNumber(gpuPower) {
          totalPower' := totalPower' + NumberValue(gpuPower);
        }
        if caseId != "" {
          var case_ := FindProduct(products, caseId);
          if case_.Some? {
            var gpuLength := SpecGet(gpu.value.specifications, "length", Null);
            var caseMaxGpu := SpecGet(case_.value.specifications, "max_gpu_length", Null);
            if Truthy(gpuLength) && Truthy(caseMaxGpu) {
              var a := PyFloat(gpuLength);
              var b := PyFloat(caseMaxGpu);
              if a.Ok? && b.Ok? && a.value > b.value {
                issues' := issues' + [Issue("gpu", FormFactor, Error, GpuTooLong(gpuLength, caseMaxGpu), None)];
              }
            }
          }
        }
      }
    }
  }

  /** Section 4: PSU wattage against the running total; sets `recommendedPsu`. */
  method CheckPsu(products: map<string, Product>, psuId: string, issues: seq<Issue>, totalPower: real,
                  recommendedPsu: real)
    returns (issues': seq<Issue>, recommendedPsu': real)
    ensures issues' == issues + PsuPartIssues(Resolve(products, psuId), totalPower)
    ensures recommendedPsu' == if PsuPart(Resolve(products, psuId)).Some? then totalPower * Headroom else recommendedPsu
  {
    issues', recommendedPsu' := issues, recommendedPsu;
    if psuId != "" {
      var psu := FindProduct(products, psuId);
      if psu.Some? {
        var psuWattage := PyFloat(SpecGet(psu.value.specifications, "wattage", Int(0)));
        if psuWattage.Ok? {
          var w := psuWattage.value;
          recommendedPsu' := totalPower * Headroom;
          if w < totalPower {
            issues' := issues' + [Issue("psu", InsufficientPower, Error, PsuInsufficient(w, totalPower),
                                        Some(map["psu_wattage" := Real(w), "required" := Real(totalPower)]))];
          } else if w < recommendedPsu' {
            issues' := issues' + [Issue("psu", LowPowerMargin, Warning, PsuLowMargin(w, recommendedPsu'), None)];
          }
        }
      }
    }
  }

  /** Section 5: cooler socket and height, when the cooler and the CPU resolve; may raise. */
  method CheckCooler(products: map<string, Product>, coolerId: string, cpuId: string, caseId: string,
                     issues: seq<Issue>)
    returns (r: Result<seq<Issue>>)
    ensures r == match CoolerPart(Resolve(products, coolerId), Resolve(products, cpuId), Resolve(products, caseId))
                 case Ok(more) => Ok(issues + more)
                 case Raised(e) => Raised(e)
  {
    var issues' := issues;
    assert issues + [] == issues;
    if coolerId != "" && cpuId != "" {
      var cooler := FindProduct(products, coolerId);
      var cpu := FindProduct(products, cpuId);
      if cooler.Some? && cpu.Some? {
        ghost var added: seq<Issue> := [];
        var coolerSockets := SpecGet(cooler.value.specifications, "socket", Arr([]));
        var cpuSocket := SpecGet(cpu.value.specifications, "socket", Null);
        if Truthy(cpuSocket) && Truthy(coolerSockets) {
          if coolerSockets.Str? {
            coolerSockets := Arr([coolerSockets]);
          }
          assert coolerSockets == CoolerSockets(cooler.value.specifications);
          var found := PyIn(cpuSocket, coolerSockets);
          if found.Raised? {
            assert CoolerSocketIssues(cooler.value.specifications, cpu.value.specifications) == Raised(found.error);
            return Raised(found.error);
          }
          if !found.value {
            issues' := issues' + [Issue("cooler", SocketMismatch, Error, CoolerSocketUnsupported(cpuSocket), None)];
            added := [Issue("cooler", SocketMismatch, Error, CoolerSocketUnsupported(cpuSocket), None)];
          }
        }
        ghost var afterSocket := issues';
        assert CoolerSocketIssues(cooler.value.specifications, cpu.value.specifications) == Ok(added);
        if caseId != "" {
          var case_ := FindProduct(products, caseId);
          if case_.Some? {
            var coolerHeight := SpecGet(cooler.value.specifications, "height", Null);
            var caseMaxCooler := SpecGet(case_.value.specifications, "max_cooler_height", Null);
            if Truthy(coolerHeight) && Truthy(caseMaxCooler) {
              var a := PyFloat(coolerHeight);
              var b := PyFloat(caseMaxCooler);
              if a.Ok? && b.Ok? && a.value > b.value {
                issues' := issues' + [Issue("cooler", FormFactor, Error, CoolerTooTall(coolerHeight, caseMaxCooler), None)];
              }
            }
          }
        }
        assert afterSocket == issues + added;
        assert issues' == afterSocket + (if Resolve(products, caseId).Some? then
          CoolerHeightIssues(cooler.value.specifications, Resolve(products, caseId).value.specifications) else []);
      }
    }
    assert CoolerPart(Resolve(products, coolerId), Resolve(products, cpuId), Resolve(products, caseId)).Ok?;
    assert issues' == issues + CoolerPart(Resolve(products, coolerId), Resolve(products, cpuId), Resolve(products, caseId)).value;
    r := Ok(issues');
  }

  /** `validate_configuration`, section by section, with the running `issues`, `totalPower` and `recommendedPsu`. */
  method ValidateConfiguration(components: map<string, string>, catalog: map<string, Product>)
    returns (r: Result<ValidationResponse>)
    ensures r == Validate(components, catalog)
    ensures r.Ok? ==> (r.value.isValid <==> NoErrors(r.value.issues))
  {
    var issues: seq<Issue> := [];
    var totalPower := 0.0;
    var recommendedPsu := 0.0;

    var productIds := RequestedIds(components);
    if productIds == {} {
      assert !NoErrors([NoComponentsIssue]) by { assert [NoComponentsIssue][0].severity == Error; }
      return Ok(ValidationResponse(false, [Issue("general", MissingComponents, Error, NoComponents, None)], None, None, None));
    }
    var products := Fetched(components, catalog);

    var cpuId := SlotId(components, "cpu");
    var motherboardId := SlotId(components, "motherboard");
    var gpuId := SlotId(components, "gpu");
    var ramId := SlotId(components, "ram");
    var psuId := SlotId(components, "psu");
    var caseId := SlotId(components, "case");
    var coolerId := SlotId(components, "cooler");
    ghost var s := ResolveSlots(components, products);
    assert s == Slots(Resolve(products, cpuId), Resolve(products, motherboardId), Resolve(products, gpuId),
                      Resolve(products, ramId), Resolve(products, psuId), Resolve(products, caseId),
                      Resolve(products, coolerId));

    issues, totalPower := CheckCpuMotherboard(products, cpuId, motherboardId, issues, totalPower);
    assert issues == SocketPart(s.cpu, s.mb);
    issues := CheckRam(products, ramId, motherboardId, issues);
    issues, totalPower := CheckGpu(products, gpuId, caseId, issues, totalPower);
    assert totalPower == TotalPower(s);
    issues, recommendedPsu := CheckPsu(products, psuId, issues, totalPower, recommendedPsu);
    assert issues == IssuesBeforeCooler(s);
    assert totalPower == TotalPower(s) && recommendedPsu == Recommended(s.psu, TotalPower(s));
    var withCooler := CheckCooler(products, coolerId, cpuId, caseId, issues);
    if withCooler.Raised? {
      return Raised(withCooler.error);
    }
    issues := withCooler.value;

    var isValid := NoErrors(issues);
    r := Ok(ValidationResponse(
      isValid,
      issues,
      if totalPower > 0.0 then Some(totalPower) else None,
      if recommendedPsu > 0.0 then Some(recommendedPsu) else None,
      None));
  }
}
