/**
 * Seeding of the TechLipton recommended sets: how a product is created from a
 * component entry (brand and model from its name, the CPU and GPU score
 * formulas), how an existing product is reused, and how each set becomes a
 * preset with its component map, score and budget bounds.
 */
module SeedData {
  import opened Wrappers
  import opened Json
  import opened Models
  import PyStr

  // ---------------------------------------------------------------------------
  // Brand and model
  // ---------------------------------------------------------------------------

  /** The brand (first word, or "Unknown") and the model (the other words, or the whole name). */
  function BrandModel(name: string): (string, string) {
    var parts := PyStr.Split(name);
    var brand := if parts != [] then parts[0] else "Unknown";
    var model := if |parts| > 1 then PyStr.Join(" ", parts[1..]) else name;
    (brand, model)
  }

  /** Every word `split()` produces is non-empty and free of whitespace. */
  lemma {:induction false} SplitWords(s: string)
    ensures forall i :: 0 <= i < |PyStr.Split(s)| ==> PyStr.Split(s)[i] != [] && PyStr.NoSpace(PyStr.Split(s)[i])
    decreases |s|
  {
    if s != [] {
      if PyStr.IsSpace(s[0]) {
        SplitWords(s[1..]);
      } else {
        var w := PyStr.Word(s);
        SplitWords(s[|w|..]);
        var rest := PyStr.Split(s[|w|..]);
        assert PyStr.Split(s) == [w] + rest;
      }
    }
  }

  /**
   * The brand is a single word; for a name of two or more words, brand and
   * model joined by a space split into the name's words again; otherwise the
   * model is the whole name.
   */
  lemma BrandModelRule(name: string)
    ensures var (brand, model) := BrandModel(name);
      var parts := PyStr.Split(name);
      && brand != [] && PyStr.NoSpace(brand)
      && (parts == [] ==> brand == "Unknown" && model == name)
      && (|parts| == 1 ==> brand == parts[0] && model == name)
      && (|parts| > 1 ==> PyStr.Split(brand + " " + model) == parts)
  {
    var parts := PyStr.Split(name);
    SplitWords(name);
    if |parts| > 1 {
      var (brand, model) := BrandModel(name);
      assert brand + " " + model == PyStr.Join(" ", parts);
      PyStr.SplitJoin(parts);
    }
  }

  // ---------------------------------------------------------------------------
  // Score formulas
  // ---------------------------------------------------------------------------

  /** `min(100, x)`. */
  function Min100(x: real): real {
    if x < 100.0 then x else 100.0
  }

  /**
   * `5 * cores + 2 * threads + 10 * boost_clock`, capped at 100. A missing
   * entry counts as 0; any other non-number makes the arithmetic or the
   * comparison in `min` raise TypeError.
   */
  function CpuPerformance(specs: Specs): (r: Result<real>)
    ensures r.Ok? ==> r.value <= 100.0
  {
    var cores, threads, boost := SpecGet(specs, "cores", Int(0)), SpecGet(specs, "threads", Int(0)),
                                 SpecGet(specs, "boost_clock", Int(0));
    if IsNumber(cores) && IsNumber(threads) && IsNumber(boost) then
      Ok(Min100(NumberValue(cores) * 5.0 + NumberValue(threads) * 2.0 + NumberValue(boost) * 10.0))
    else Raised(TypeError)
  }

  /** `5 * vram + 0.5 * power_consumption`, capped at 100, with the same missing-entry and TypeError rules. */
  function GpuGaming(specs: Specs): (r: Result<real>)
    ensures r.Ok? ==> r.value <= 100.0
  {
    var vram, power := SpecGet(specs, "vram", Int(0)), SpecGet(specs, "power_consumption", Int(0));
    if IsNumber(vram) && IsNumber(power) then
      Ok(Min100(NumberValue(vram) * 5.0 + NumberValue(power) * 0.5))
    else Raised(TypeError)
  }

  /** The CPU formula: exact below the cap, 100 at or above it, an error exactly when an entry is not a number. */
  lemma CpuPerformanceRule(specs: Specs)
    ensures var cores, threads, boost := SpecGet(specs, "cores", Int(0)), SpecGet(specs, "threads", Int(0)),
                                         SpecGet(specs, "boost_clock", Int(0));
      && (CpuPerformance(specs).Ok? <==> IsNumber(cores) && IsNumber(threads) && IsNumber(boost))
      && (CpuPerformance(specs).Ok? ==>
            var x := 5.0 * NumberValue(cores) + 2.0 * NumberValue(threads) + 10.0 * NumberValue(boost);
            CpuPerformance(specs).value == if x <= 100.0 then x else 100.0)
  {
  }

  /** A missing CPU entry scores as an explicit 0. */
  lemma CpuMissingIsZero(specs: Specs, key: string)
    requires key in {"cores", "threads", "boost_clock"} && key !in specs
    ensures CpuPerformance(specs) == CpuPerformance(specs[key := Int(0)])
  {
  }

  /** A missing GPU entry scores as an explicit 0. */
  lemma GpuMissingIsZero(specs: Specs, key: string)
    requires key in {"vram", "power_consumption"} && key !in specs
    ensures GpuGaming(specs) == GpuGaming(specs[key := Int(0)])
  {
  }

  /** The (performance_score, gaming_score) pair of a new product. */
  datatype ProductScores = ProductScores(performance: Option<real>, gaming: Option<real>)

  function ScoresFor(kind: ProductType, specs: Specs): (r: Result<ProductScores>)
    ensures r.Ok? && kind == Gpu ==> r.value.performance == r.value.gaming
    ensures r.Ok? && kind !in {Cpu, Gpu} ==> r.value == ProductScores(None, None)
    ensures r.Ok? && kind in {Cpu, Gpu} ==> r.value.performance.Some? && r.value.performance.value <= 100.0
    ensures r.Ok? && kind == Cpu ==> r.value.gaming.None?
  {
    match kind
    case Cpu => (match CpuPerformance(specs) case Raised(e) => Raised(e) case Ok(p) => Ok(ProductScores(Some(p), None)))
    case Gpu => (match GpuGaming(specs) case Raised(e) => Raised(e) case Ok(g) => Ok(ProductScores(Some(g), Some(g))))
    case _ => Ok(ProductScores(None, None))
  }

  // ---------------------------------------------------------------------------
  // Get or create
  // ---------------------------------------------------------------------------

  /** A component entry of a set: its type value, name, price and specifications. */
  datatype ComponentData = ComponentData(typeName: string, name: string, price: real, specs: Specs)

  /** The product already stored with this name and type, if any. */
  function FindExisting(catalog: seq<Product>, name: string, kind: ProductType): (r: Option<Product>)
    ensures r.Some? ==> r.value in catalog && r.value.name == name && r.value.kind == kind
    ensures r.None? ==> forall i :: 0 <= i < |catalog| ==> !(catalog[i].name == name && catalog[i].kind == kind)
  {
    if catalog == [] then None
    else if catalog[0].name == name && catalog[0].kind == kind then Some(catalog[0])
    else FindExisting(catalog[1..], name, kind)
  }

  /** No two stored products share a name and a type, so the lookup finds at most one. */
  predicate NoDuplicates(catalog: seq<Product>) {
    forall i, j :: 0 <= i < j < |catalog| ==> !(catalog[i].name == catalog[j].name && catalog[i].kind == catalog[j].kind)
  }

  /** The product created for a component that is not stored yet; `id` stands for the generated key. */
  function CreateProduct(id: string, c: ComponentData, kind: ProductType): (r: Result<Product>)
    ensures r.Ok? ==> r.value.name == c.name && r.value.kind == kind && r.value.id == id
                      && r.value.specifications == c.specs && r.value.price == c.price
                      && r.value.inStock && r.value.segment == Some(Gaming)
    ensures r.Ok? <==> ScoresFor(kind, c.specs).Ok?
  {
    match ScoresFor(kind, c.specs)
    case Raised(e) => Raised(e)
    case Ok(sc) =>
      var (brand, model) := BrandModel(c.name);
      Ok(Product(id, c.name, kind, Some(Gaming), c.price, c.specs, true, sc.performance, sc.gaming,
                 Some(brand), Some(model)))
  }

  /** One step of the set loop: the stored product for the component, or a new one added to the catalog. */
  function GetOrCreate(catalog: seq<Product>, id: string, c: ComponentData, kind: ProductType)
    : (r: Result<(seq<Product>, Product)>)
    ensures r.Ok? ==> r.value.1 in r.value.0 && r.value.1.name == c.name && r.value.1.kind == kind
    ensures r.Ok? && FindExisting(catalog, c.name, kind).Some? ==> r.value.0 == catalog
    ensures r.Ok? && FindExisting(catalog, c.name, kind).None? ==> r.value.0 == catalog + [r.value.1]
    ensures NoDuplicates(catalog) && r.Ok? ==> NoDuplicates(r.value.0)
  {
    match FindExisting(catalog, c.name, kind)
    case Some(p) => Ok((catalog, p))
    case None =>
      match CreateProduct(id, c, kind)
      case Raised(e) => Raised(e)
      case Ok(p) => Ok((catalog + [p], p))
  }

  lemma GetOrCreateKeeps(catalog: seq<Product>, id: string, c: ComponentData, kind: ProductType)
    requires GetOrCreate(catalog, id, c, kind).Ok?
    ensures forall p :: p in catalog ==> p in GetOrCreate(catalog, id, c, kind).value.0
  {
  }

  // ---------------------------------------------------------------------------
  // From a set to a preset
  // ---------------------------------------------------------------------------

  datatype SetData = SetData(name: string, description: string, price: real, priority: int,
                             components: seq<ComponentData>)

  /** The catalog and the products list after the loop has handled `comps`; keys come from `newId`. */
  function SeedLoop(catalog: seq<Product>, newId: nat -> string, comps: seq<ComponentData>)
    : (r: Result<(seq<Product>, seq<Product>)>)
    ensures r.Ok? ==> |r.value.1| == |comps|
    decreases |comps|
  {
    if comps == [] then Ok((catalog, []))
    else
      match SeedLoop(catalog, newId, comps[..|comps| - 1])
      case Raised(e) => Raised(e)
      case Ok(state) =>
        var (cat, ps) := state;
        var c := comps[|comps| - 1];
        match ParseProductType(c.typeName)
        case None => Raised(ValueError)
        case Some(kind) =>
          match GetOrCreate(cat, newId(|cat|), c, kind)
          case Raised(e) => Raised(e)
          case Ok(step) => Ok((step.0, ps + [step.1]))
  }

  /** The component map: each component's type value mapped to its product's id, later entries winning. */
  function TypeMap(comps: seq<ComponentData>, ps: seq<Product>): map<string, string>
    requires |comps| == |ps|
    decreases |comps|
  {
    if comps == [] then map[]
    else TypeMap(comps[..|comps| - 1], ps[..|ps| - 1])[comps[|comps| - 1].typeName := ps[|ps| - 1].id]
  }

  /** The first product of `kind`, as `next(p for p in products if p.type == kind)` finds it. */
  function FirstOf(ps: seq<Product>, kind: ProductType): (r: Option<Product>)
    ensures r.Some? ==> exists i :: 0 <= i < |ps| && ps[i] == r.value && r.value.kind == kind
                          && forall j :: 0 <= j < i ==> ps[j].kind != kind
    ensures r.None? ==> forall i :: 0 <= i < |ps| ==> ps[i].kind != kind
  {
    if ps == [] then None
    else if ps[0].kind == kind then Some(ps[0])
    else
      var r := FirstOf(ps[1..], kind);
      assert r.Some? ==> exists i :: 0 <= i < |ps| && ps[i] == r.value && forall j :: 0 <= j < i ==> ps[j].kind != kind by {
        if r.Some? {
          var i :| 0 <= i < |ps[1..]| && ps[1..][i] == r.value && r.value.kind == kind
                   && forall j :: 0 <= j < i ==> ps[1..][j].kind != kind;
          assert ps[i + 1] == r.value;
        }
      }
      r
  }

  /** The preset score: 40 % CPU and 60 % GPU, the CPU's own score without a GPU, none without a CPU. */
  function SetScore(ps: seq<Product>): Option<real> {
    match FirstOf(ps, Cpu)
    case None => None
    case Some(cpu) =>
      match FirstOf(ps, Gpu)
      case Some(gpu) => Some(OrElse(cpu.performanceScore, 0.0) * 0.4
                             + OrElse(gpu.gamingScore, OrElse(gpu.performanceScore, 0.0)) * 0.6)
      case None => cpu.performanceScore
  }

  /** The budget window: 90 % and 110 % of the set price, which it contains for a non-negative price. */
  function BudgetBounds(price: real): (r: (real, real))
    ensures price >= 0.0 ==> r.0 <= price <= r.1
    ensures price < 0.0 ==> r.1 < price < r.0
  {
    (price * 0.9, price * 1.1)
  }

  const ReasoningPrefix := "Zestaw polecany przez TechLipton - "

  /** The stored reasoning: the fixed prefix and at most the first 100 characters of the description. */
  function SetReasoning(description: string): (r: string)
    ensures |r| == |ReasoningPrefix| + (if |description| < 100 then |description| else 100)
    ensures r[..|ReasoningPrefix|] == ReasoningPrefix
    ensures description == r[|ReasoningPrefix|..] + description[|r| - |ReasoningPrefix|..]
  {
    var cut := if |description| < 100 then |description| else 100;
    var r := ReasoningPrefix + description[..cut];
    assert r[|ReasoningPrefix|..] == description[..cut];
    r
  }

  /** The catalog only grows, and it stays free of duplicates. */
  lemma {:induction false} SeedLoopCatalog(catalog: seq<Product>, newId: nat -> string, comps: seq<ComponentData>)
    requires SeedLoop(catalog, newId, comps).Ok?
    ensures var cat := SeedLoop(catalog, newId, comps).value.0;
      && |catalog| <= |cat| && cat[..|catalog|] == catalog
      && (NoDuplicates(catalog) ==> NoDuplicates(cat))
    decreases |comps|
  {
    if comps != [] {
      var init := comps[..|comps| - 1];
      SeedLoopCatalog(catalog, newId, init);
      var cat := SeedLoop(catalog, newId, init).value.0;
      var next := SeedLoop(catalog, newId, comps).value.0;
      assert next == cat || (|next| == |cat| + 1 && next[..|cat|] == cat);
      assert next[..|catalog|] == cat[..|catalog|];
    }
  }

  /** Each listed product is in the catalog and has the name and type of the component at its position. */
  predicate ProductsMatch(comps: seq<ComponentData>, cat: seq<Product>, ps: seq<Product>) {
    |ps| == |comps| &&
    forall i :: 0 <= i < |ps| ==>
      ps[i] in cat && ps[i].name == comps[i].name && TypeName(ps[i].kind) == comps[i].typeName
  }

  /** The match survives a catalog that only grows and one more product matching the next component. */
  lemma ProductsExtend(comps: seq<ComponentData>, ps: seq<Product>, cat: seq<Product>, p: Product, cat': seq<Product>)
    requires comps != [] && ProductsMatch(comps[..|comps| - 1], cat, ps)
    requires cat' == cat || cat' == cat + [p]
    requires p in cat' && p.name == comps[|ps|].name && TypeName(p.kind) == comps[|ps|].typeName
    ensures ProductsMatch(comps, cat', ps + [p])
  {
    forall i | 0 <= i < |ps + [p]|
      ensures (ps + [p])[i] in cat' && (ps + [p])[i].name == comps[i].name && TypeName((ps + [p])[i].kind) == comps[i].typeName
    {
      if i < |ps| {
        assert (ps + [p])[i] == ps[i];
        assert comps[..|comps| - 1][i] == comps[i];
        assert ps[i] in cat';
      }
    }
  }

  /** Every slot of the component map is the type value of some component. */
  lemma {:induction false} TypeMapKeys(comps: seq<ComponentData>, ps: seq<Product>, k: string)
    requires |comps| == |ps|
    ensures k in TypeMap(comps, ps) ==> exists i :: 0 <= i < |comps| && comps[i].typeName == k
    decreases |comps|
  {
    if comps != [] && k in TypeMap(comps, ps) {
      var n := |comps| - 1;
      if comps[n].typeName != k {
        TypeMapKeys(comps[..n], ps[..n], k);
        var i :| 0 <= i < n && comps[..n][i].typeName == k;
        assert comps[i].typeName == k;
      }
    }
  }

  /** The slot of the last component of a type holds that component's product id. */
  lemma {:induction false} TypeMapLast(comps: seq<ComponentData>, ps: seq<Product>, k: string, i: nat)
    requires |comps| == |ps| && i < |comps| && comps[i].typeName == k
    requires forall j :: i < j < |comps| ==> comps[j].typeName != k
    ensures k in TypeMap(comps, ps) && TypeMap(comps, ps)[k] == ps[i].id
    decreases |comps|
  {
    var n := |comps| - 1;
    if i < n {
      var init := comps[..n];
      assert init[i] == comps[i];
      assert forall j :: i < j < n ==> init[j] == comps[j];
      TypeMapLast(init, ps[..n], k, i);
      assert ps[..n][i] == ps[i];
    }
  }

  /** Among the components from `i` on that have type value `k`, the last one. */
  lemma {:induction false} LastOfType(comps: seq<ComponentData>, k: string, i: nat) returns (m: nat)
    requires i < |comps| && comps[i].typeName == k
    ensures i <= m < |comps| && comps[m].typeName == k
    ensures forall j :: m < j < |comps| ==> comps[j].typeName != k
    decreases |comps| - i
  {
    if exists j :: i < j < |comps| && comps[j].typeName == k {
      var j :| i < j < |comps| && comps[j].typeName == k;
      m := LastOfType(comps, k, j);
    } else {
      m := i;
    }
  }

  /** A slot of the component map holds the id of the last component of that type. */
  lemma TypeMapRule(comps: seq<ComponentData>, ps: seq<Product>, k: string)
    requires |comps| == |ps|
    ensures k in TypeMap(comps, ps) <==> exists i :: 0 <= i < |comps| && comps[i].typeName == k
    ensures k in TypeMap(comps, ps) ==>
      exists i :: 0 <= i < |comps| && comps[i].typeName == k && TypeMap(comps, ps)[k] == ps[i].id
        && forall j :: i < j < |comps| ==> comps[j].typeName != k
  {
    TypeMapKeys(comps, ps, k);
    if exists i :: 0 <= i < |comps| && comps[i].typeName == k {
      var i :| 0 <= i < |comps| && comps[i].typeName == k;
      var m := LastOfType(comps, k, i);
      TypeMapLast(comps, ps, k, m);
    }
  }

  /** With product scores in 0..100 the set score is in 0..100 too. */
  lemma SetScoreInRange(ps: seq<Product>)
    requires forall i :: 0 <= i < |ps| ==> ScoreInRange(ps[i].performanceScore) && ScoreInRange(ps[i].gamingScore)
    ensures SetScore(ps).Some? ==> 0.0 <= SetScore(ps).value <= 100.0
  {
  }

  predicate ScoreInRange(o: Option<real>) {
    o.Some? ==> 0.0 <= o.value <= 100.0
  }

  /** One more component: the loop over the longer prefix continues from the shorter one. */
  lemma SeedLoopNext(catalog: seq<Product>, newId: nat -> string, comps: seq<ComponentData>, i: nat,
                     cat: seq<Product>, ps: seq<Product>)
    requires i < |comps| && SeedLoop(catalog, newId, comps[..i]) == Ok((cat, ps))
    ensures ParseProductType(comps[i].typeName).None? ==> SeedLoop(catalog, newId, comps[..i + 1]) == Raised(ValueError)
    ensures ParseProductType(comps[i].typeName).Some? ==>
      var got := GetOrCreate(cat, newId(|cat|), comps[i], ParseProductType(comps[i].typeName).value);
      SeedLoop(catalog, newId, comps[..i + 1]) == if got.Raised? then Raised(got.error) else Ok((got.value.0, ps + [got.value.1]))
  {
    assert comps[..i + 1][..i] == comps[..i];
  }

  /** The loop over a set's components: the catalog, the products list and the component map. */
  method SeedComponents(catalog: seq<Product>, newId: nat -> string, comps: seq<ComponentData>)
    returns (r: Result<(seq<Product>, seq<Product>, map<string, string>)>)
    ensures SeedLoop(catalog, newId, comps).Raised? ==> r == Raised(SeedLoop(catalog, newId, comps).error)
    ensures SeedLoop(catalog, newId, comps).Ok? ==>
      r.Ok? && (r.value.0, r.value.1) == SeedLoop(catalog, newId, comps).value
      && |r.value.1| == |comps| && r.value.2 == TypeMap(comps, r.value.1)
    ensures r.Ok? ==> ProductsMatch(comps, r.value.0, r.value.1)
  {
    var cat := catalog;
    var componentMap: map<string, string> := map[];
    var productsList: seq<Product> := [];
    for i := 0 to |comps|
      invariant SeedLoop(catalog, newId, comps[..i]) == Ok((cat, productsList))
      invariant |productsList| == i
      invariant componentMap == TypeMap(comps[..i], productsList)
      invariant ProductsMatch(comps[..i], cat, productsList)
    {
      var component := comps[i];
      assert comps[..i + 1][..i] == comps[..i];
      SeedLoopNext(catalog, newId, comps, i, cat, productsList);
      var kind := ParseProductType(component.typeName);
      if kind.None? {
        SeedLoopRaisedSticks(catalog, newId, comps, i + 1);
        return Raised(ValueError);
      }
      var got := GetOrCreate(cat, newId(|cat|), component, kind.value);
      if got.Raised? {
        SeedLoopRaisedSticks(catalog, newId, comps, i + 1);
        return Raised(got.error);
      }
      var product := got.value.1;
      ProductsExtend(comps[..i + 1], productsList, cat, product, got.value.0);
      cat := got.value.0;
      productsList := productsList + [product];
      componentMap := componentMap[component.typeName := product.id];
      assert productsList[..i] == productsList[..|productsList| - 1];
    }
    assert comps[..|comps|] == comps;
    r := Ok((cat, productsList, componentMap));
  }

  /** Builds the preset for one set; `presetId` stands for the generated key. */
  method SeedSet(catalog: seq<Product>, newId: nat -> string, data: SetData, presetId: string)
    returns (r: Result<(seq<Product>, Preset)>)
    ensures SeedLoop(catalog, newId, data.components).Raised? ==> r == Raised(SeedLoop(catalog, newId, data.components).error)
    ensures SeedLoop(catalog, newId, data.components).Ok? ==>
      var (cat, ps) := SeedLoop(catalog, newId, data.components).value;
      && r.Ok? && r.value.0 == cat
      && var preset := r.value.1;
      && preset.componentMap == TypeMap(data.components, ps)
      && preset.performanceScore == SetScore(ps)
      && (preset.minBudget, preset.maxBudget) == (Some(BudgetBounds(data.price).0), Some(BudgetBounds(data.price).1))
      && preset.reasoning == Some(SetReasoning(data.description))
      && preset.deviceType == Pc && preset.segment == Gaming && preset.isActive
      && preset.priority == data.priority && preset.totalPrice == data.price && preset.name == data.name
      && preset.description == Some(data.description) && preset.imageUrl.None?
      && preset.id == presetId
  {
    var seeded := SeedComponents(catalog, newId, data.components);
    if seeded.Raised? {
      return Raised(seeded.error);
    }
    var (cat, productsList, componentMap) := seeded.value;
    var bounds := BudgetBounds(data.price);
    var preset := Preset(presetId, data.name, Some(data.description), Pc, Gaming, Some(bounds.0), Some(bounds.1), componentMap, data.price,
                         SetScore(productsList), Some(SetReasoning(data.description)), true, data.priority, None);
    r := Ok((cat, preset));
  }

  /** Once a prefix of the components raises, the whole loop raises the same exception. */
  lemma {:induction false} SeedLoopRaisedSticks(catalog: seq<Product>, newId: nat -> string,
                                                comps: seq<ComponentData>, n: nat)
    requires n <= |comps| && SeedLoop(catalog, newId, comps[..n]).Raised?
    ensures SeedLoop(catalog, newId, comps) == SeedLoop(catalog, newId, comps[..n])
    decreases |comps| - n
  {
    if n < |comps| {
      assert comps[..n + 1][..n] == comps[..n];
      SeedLoopRaisedSticks(catalog, newId, comps, n + 1);
    } else {
      assert comps[..n] == comps;
    }
  }

  /**
   * The component map keeps the last CPU while the score uses the first: two
   * CPUs in one set store the second one's id and score the first one.
   */
  lemma FirstScoredLastStored(a: Product, b: Product, ca: ComponentData, cb: ComponentData)
    requires a.kind == Cpu && b.kind == Cpu && ca.typeName == "cpu" && cb.typeName == "cpu"
    ensures TypeMap([ca, cb], [a, b])["cpu"] == b.id
    ensures SetScore([a, b]) == a.performanceScore
  {
    assert [ca, cb][..1] == [ca] && [a, b][..1] == [a];
    assert [ca][..0] == [] && [a][..0] == [];
  }

  /** What seeding one set yields: the catalog after its components and the preset built from them. */
  function SetOutcome(catalog: seq<Product>, newId: nat -> string, data: SetData, presetId: string)
    : Result<(seq<Product>, Preset)>
  {
    match SeedLoop(catalog, newId, data.components)
    case Raised(e) => Raised(e)
    case Ok(state) =>
      var (cat, ps) := state;
      var bounds := BudgetBounds(data.price);
      Ok((cat, Preset(presetId, data.name, Some(data.description), Pc, Gaming, Some(bounds.0), Some(bounds.1),
                      TypeMap(data.components, ps), data.price, SetScore(ps), Some(SetReasoning(data.description)),
                      true, data.priority, None)))
  }

  /**
   * Runs `step` over `xs` in order from the state `s0`, collecting one output per
   * element; the first exception ends the run.
   */
  function Fold<S, X, P>(s0: S, step: (S, X) -> Result<(S, P)>, xs: seq<X>): (r: Result<(S, seq<P>)>)
    ensures r.Ok? ==> |r.value.1| == |xs|
    decreases |xs|
  {
    if xs == [] then Ok((s0, []))
    else
      match Fold(s0, step, xs[..|xs| - 1])
      case Raised(e) => Raised(e)
      case Ok(state) =>
        match step(state.0, xs[|xs| - 1])
        case Raised(e) => Raised(e)
        case Ok(o) => Ok((o.0, state.1 + [o.1]))
  }

  /** One more element: the run over the longer prefix continues from the shorter one's state and outputs. */
  lemma FoldNext<S, X, P>(s0: S, step: (S, X) -> Result<(S, P)>, xs: seq<X>, i: nat, s: S, out: seq<P>)
    requires i < |xs| && Fold(s0, step, xs[..i]) == Ok((s, out))
    ensures Fold(s0, step, xs[..i + 1])
         == if step(s, xs[i]).Raised? then Raised(step(s, xs[i]).error) else Ok((step(s, xs[i]).value.0, out + [step(s, xs[i]).value.1]))
  {
    assert xs[..i + 1][..i] == xs[..i];
  }

  /** Once a prefix raises, the whole run raises the same exception. */
  lemma {:induction false} FoldRaisedSticks<S, X, P>(s0: S, step: (S, X) -> Result<(S, P)>, xs: seq<X>, n: nat)
    requires n <= |xs| && Fold(s0, step, xs[..n]).Raised?
    ensures Fold(s0, step, xs) == Fold(s0, step, xs[..n])
    decreases |xs| - n
  {
    if n < |xs| {
      assert xs[..n + 1][..n] == xs[..n];
      FoldRaisedSticks(s0, step, xs, n + 1);
    } else {
      assert xs[..n] == xs;
    }
  }

  /** A run that succeeds succeeds on every prefix, with the corresponding prefix of the outputs. */
  lemma {:induction false} FoldPrefix<S, X, P>(s0: S, step: (S, X) -> Result<(S, P)>, xs: seq<X>, k: nat)
    requires k <= |xs| && Fold(s0, step, xs).Ok?
    ensures Fold(s0, step, xs[..k]).Ok? && Fold(s0, step, xs[..k]).value.1 == Fold(s0, step, xs).value.1[..k]
    decreases |xs|
  {
    if k == |xs| {
      assert xs[..k] == xs;
    } else {
      var n := |xs| - 1;
      var init := xs[..n];
      FoldPrefix(s0, step, init, k);
      assert init[..k] == xs[..k];
      var whole := Fold(s0, step, xs).value.1;
      assert whole[..n] == Fold(s0, step, init).value.1;
      assert whole[..n][..k] == whole[..k];
    }
  }

  /** The i-th output is what the i-th element yields from the state the first i elements left. */
  lemma FoldNth<S, X, P>(s0: S, step: (S, X) -> Result<(S, P)>, xs: seq<X>, i: nat)
    requires i < |xs| && Fold(s0, step, xs).Ok?
    ensures Fold(s0, step, xs[..i]).Ok? && Fold(s0, step, xs[..i + 1]).Ok?
    ensures step(Fold(s0, step, xs[..i]).value.0, xs[i])
         == Ok((Fold(s0, step, xs[..i + 1]).value.0, Fold(s0, step, xs).value.1[i]))
  {
    FoldPrefix(s0, step, xs, i);
    FoldPrefix(s0, step, xs, i + 1);
    var (s, out) := Fold(s0, step, xs[..i]).value;
    FoldNext(s0, step, xs, i, s, out);
    var whole := Fold(s0, step, xs).value.1;
    assert whole[..i + 1][i] == whole[i];
  }

  /** The sets paired with their keys. */
  function Keyed(sets: seq<SetData>, presetIds: seq<string>): (r: seq<(SetData, string)>)
    requires |presetIds| == |sets|
    ensures |r| == |sets| && forall i :: 0 <= i < |r| ==> r[i] == (sets[i], presetIds[i])
  {
    seq(|sets|, i requires 0 <= i < |sets| => (sets[i], presetIds[i]))
  }

  /** One set seeded against the current catalog. */
  function SetStep(newId: nat -> string): (seq<Product>, (SetData, string)) -> Result<(seq<Product>, Preset)> {
    (cat: seq<Product>, x: (SetData, string)) => SetOutcome(cat, newId, x.0, x.1)
  }

  /**
   * The sets seeded in order, each against the catalog the earlier ones left:
   * the final catalog and the presets, or the first exception raised.
   */
  function SeedAll(catalog: seq<Product>, newId: nat -> string, sets: seq<SetData>, presetIds: seq<string>)
    : Result<(seq<Product>, seq<Preset>)>
    requires |presetIds| == |sets|
  {
    Fold(catalog, SetStep(newId), Keyed(sets, presetIds))
  }

  /** One pass of the loop over the sets: the set seeded against the current catalog, which stays free of duplicates. */
  method SeedNextSet(catalog: seq<Product>, newId: nat -> string, data: SetData, presetId: string)
    returns (r: Result<(seq<Product>, Preset)>)
    ensures r == SetOutcome(catalog, newId, data, presetId)
    ensures r.Ok? && NoDuplicates(catalog) ==> NoDuplicates(r.value.0)
  {
    r := SeedSet(catalog, newId, data, presetId);
    if r.Ok? {
      SeedLoopCatalog(catalog, newId, data.components);
    }
  }

  /** Seeding runs only on an empty preset table; the sets are seeded in order. */
  method SeedPresets(presetsExist: bool, catalog: seq<Product>, newId: nat -> string,
                     sets: seq<SetData>, presetIds: seq<string>)
    returns (r: Result<(seq<Product>, seq<Preset>)>)
    requires |presetIds| == |sets|
    ensures presetsExist ==> r == Ok((catalog, []))
    ensures !presetsExist ==> r == SeedAll(catalog, newId, sets, presetIds)
    ensures !presetsExist && r.Ok? && NoDuplicates(catalog) ==> NoDuplicates(r.value.0)
  {
    if presetsExist {
      return Ok((catalog, []));
    }
    var keyed := Keyed(sets, presetIds);
    var cat := catalog;
    var presets: seq<Preset> := [];
    for i := 0 to |sets|
      invariant Fold(catalog, SetStep(newId), keyed[..i]) == Ok((cat, presets))
      invariant NoDuplicates(catalog) ==> NoDuplicates(cat)
    {
      FoldNext(catalog, SetStep(newId), keyed, i, cat, presets);
      var step := SeedNextSet(cat, newId, sets[i], presetIds[i]);
      assert SetStep(newId)(cat, keyed[i]) == step;
      if step.Raised? {
        FoldRaisedSticks(catalog, SetStep(newId), keyed, i + 1);
        return Raised(step.error);
      }
      cat := step.value.0;
      presets := presets + [step.value.1];
    }
    assert keyed[..|sets|] == keyed;
    r := Ok((cat, presets));
  }

  /**
   * The i-th preset is the one the i-th set yields against the catalog left by
   * the first i sets: it carries that set's key and name.
   */
  lemma SeedAllNth(catalog: seq<Product>, newId: nat -> string, sets: seq<SetData>, presetIds: seq<string>, i: nat)
    requires |presetIds| == |sets| && i < |sets|
    requires SeedAll(catalog, newId, sets, presetIds).Ok?
    ensures Fold(catalog, SetStep(newId), Keyed(sets, presetIds)[..i]).Ok?
    ensures var before := Fold(catalog, SetStep(newId), Keyed(sets, presetIds)[..i]).value.0;
      var preset := SeedAll(catalog, newId, sets, presetIds).value.1[i];
      && SetOutcome(before, newId, sets[i], presetIds[i]).Ok?
      && SetOutcome(before, newId, sets[i], presetIds[i]).value.1 == preset
      && preset.name == sets[i].name && preset.id == presetIds[i]
  {
    var keyed := Keyed(sets, presetIds);
    FoldNth(catalog, SetStep(newId), keyed, i);
    var before := Fold(catalog, SetStep(newId), keyed[..i]).value.0;
    assert SetStep(newId)(before, keyed[i]) == SetOutcome(before, newId, sets[i], presetIds[i]);
  }
}
