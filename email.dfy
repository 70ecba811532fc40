/**
 * The plain-text part of the inquiry notification e-mail: the subject, the
 * configuration fields with their defaults, the assembly line and the list of
 * selected components. Rendering a non-string value into the text (`f"{v}"`)
 * is a parameter `show`.
 */
module Email {
  import opened Wrappers
  import opened Json
  import PyStr

  const SubjectPrefix := "Nowe zapytanie ofertowe - "
  const NotAvailable := "N/A"
  const NoComponents := "Brak wybranych komponentów"
  const AssemblyYes := "TAK (+399 zł)"
  const AssemblyNo := "NIE"
  const Currency := " zł"

  /** The label of each known component slot. */
  const Labels: seq<(string, string)> := [
    ("cpu", "Procesor (CPU)"),
    ("motherboard", "Płyta główna"),
    ("gpu", "Karta graficzna (GPU)"),
    ("ram", "Pamięć RAM"),
    ("storage", "Dysk"),
    ("psu", "Zasilacz (PSU)"),
    ("case", "Obudowa"),
    ("cooler", "Chłodzenie")
  ]

  function Lookup(table: seq<(string, string)>, key: string): Option<string> {
    if table == [] then None
    else if table[0].0 == key then Some(table[0].1)
    else Lookup(table[1..], key)
  }

  /** `{...}.get(key, key.upper())`. */
  function Label(key: string): string {
    Lookup(Labels, key).GetOr(PyStr.Upper(key))
  }

  /** Each slot of the table gets its own label; any other key is shown upper-cased. */
  lemma LabelMeaning(key: string)
    ensures forall i :: 0 <= i < |Labels| && Labels[i].0 == key ==> Label(key) == Labels[i].1
    ensures (forall i :: 0 <= i < |Labels| ==> Labels[i].0 != key) ==> Label(key) == PyStr.Upper(key)
  {
    LookupMeaning(Labels, key);
  }

  lemma {:induction false} LookupMeaning(table: seq<(string, string)>, key: string)
    requires forall i, j :: 0 <= i < j < |table| ==> table[i].0 != table[j].0
    ensures forall i :: 0 <= i < |table| && table[i].0 == key ==> Lookup(table, key) == Some(table[i].1)
    ensures (forall i :: 0 <= i < |table| ==> table[i].0 != key) ==> Lookup(table, key).None?
  {
    if table != [] {
      LookupMeaning(table[1..], key);
      forall i | 0 < i < |table| && table[i].0 == key ensures Lookup(table, key) == Some(table[i].1) {
        assert table[1..][i - 1] == table[i];
      }
      if forall i :: 0 <= i < |table| ==> table[i].0 != key {
        forall i | 0 <= i < |table[1..]| ensures table[1..][i].0 != key {
          assert table[1..][i] == table[i + 1];
        }
      }
    }
  }

  /** `f"{v}"`: a string as it is, any other value as `show` renders it. */
  function Show(v: Json, show: Json -> string): string {
    if v.Str? then v.str else show(v)
  }

  /** The line a truthy component value contributes to the list. */
  function ComponentLine(key: string, value: Json, show: Json -> string): string {
    if value.Obj? then
      "- " + Label(key) + ": " + Show(GetOr(value.fields, "name", Str(NotAvailable)), show)
        + " (" + Show(GetOr(value.fields, "price", Int(0)), show) + Currency + ")\n"
    else
      "- " + Label(key) + ": " + Show(value, show) + "\n"
  }

  /** The lines of the truthy values, in the dict's order. */
  function ComponentLines(items: seq<(string, Json)>, show: Json -> string): string {
    if items == [] then ""
    else
      var (key, value) := items[|items| - 1];
      ComponentLines(items[..|items| - 1], show) + (if Truthy(value) then ComponentLine(key, value, show) else "")
  }

  /** The list of two runs of entries is the list of the first followed by that of the second. */
  lemma {:induction false} ComponentLinesConcat(a: seq<(string, Json)>, b: seq<(string, Json)>, show: Json -> string)
    ensures ComponentLines(a + b, show) == ComponentLines(a, show) + ComponentLines(b, show)
  {
    if b == [] {
      assert a + b == a;
    } else {
      var b' := b[..|b| - 1];
      assert (a + b)[..|a + b| - 1] == a + b';
      assert (a + b)[|a + b| - 1] == b[|b| - 1];
      ComponentLinesConcat(a, b', show);
    }
  }

  /** The list is empty exactly when every value is falsy: falsy values are skipped without a trace. */
  lemma {:induction false} ComponentLinesEmpty(items: seq<(string, Json)>, show: Json -> string)
    ensures ComponentLines(items, show) == "" <==> forall i :: 0 <= i < |items| ==> !Truthy(items[i].1)
  {
    if items != [] {
      var p := items[..|items| - 1];
      ComponentLinesEmpty(p, show);
      var (key, value) := items[|items| - 1];
      if Truthy(value) {
        assert ComponentLine(key, value, show)[0] == '-';
      }
      assert forall i :: 0 <= i < |p| ==> p[i] == items[i];
    }
  }

  /** The loop that builds `components_text` over the dict's items with `+=`. */
  method ListComponents(items: seq<(string, Json)>, show: Json -> string) returns (componentsText: string)
    ensures componentsText == ComponentLines(items, show)
  {
    componentsText := "";
    for i := 0 to |items|
      invariant componentsText == ComponentLines(items[..i], show)
    {
      assert items[..i + 1][..i] == items[..i];
      var (key, value) := items[i];
      if Truthy(value) {
        var componentLabel := Label(key);
        if value.Obj? {
          var name := GetOr(value.fields, "name", Str(NotAvailable));
          var price := GetOr(value.fields, "price", Int(0));
          componentsText := componentsText + "- " + componentLabel + ": " + Show(name, show) + " (" + Show(price, show) + Currency + ")\n";
        } else {
          componentsText := componentsText + "- " + componentLabel + ": " + Show(value, show) + "\n";
        }
      }
    }
    assert items[..|items|] == items;
  }

  /** The text fields of the notification. */
  datatype Notification = Notification(
    subject: string,
    device: Json,
    segment: Json,
    budget: Json,
    totalPrice: Json,
    assembly: string,
    components: string)

  /** `inquiry_data.get('configuration_data', {})`. */
  function ConfigOf(inquiry: seq<(string, Json)>): Json {
    GetOr(inquiry, "configuration_data", Obj([]))
  }

  /** `config_data.get('components', {})`. */
  function ComponentsOf(config: seq<(string, Json)>): Json {
    GetOr(config, "components", Obj([]))
  }

  /**
   * The subject and the configuration fields of `send_inquiry_notification`'s plain-text part. The stored configuration must be
   * a dict and a truthy components value must be one too, or the call raises AttributeError.
   */
  method InquiryNotification(reference: string, inquiry: seq<(string, Json)>, show: Json -> string)
    returns (r: Result<Notification>)
    ensures r.Raised? <==>
      (!ConfigOf(inquiry).Obj? ||
       (Truthy(ComponentsOf(ConfigOf(inquiry).fields)) && !ComponentsOf(ConfigOf(inquiry).fields).Obj?))
    ensures r.Raised? ==> r.error == AttributeError
    ensures r.Ok? ==>
      var config := ConfigOf(inquiry).fields;
      var components := ComponentsOf(config);
      r.value.subject == SubjectPrefix + reference &&
      r.value.device == GetOr(config, "device", Str(NotAvailable)) &&
      r.value.segment == GetOr(config, "segment", Str(NotAvailable)) &&
      r.value.budget == GetOr(config, "budget", Str(NotAvailable)) &&
      r.value.totalPrice == GetOr(config, "totalPrice", Str(NotAvailable)) &&
      (r.value.assembly == AssemblyYes <==> Truthy(GetOr(config, "assemblyService", Bool(false)))) &&
      (r.value.assembly == AssemblyNo <==> !Truthy(GetOr(config, "assemblyService", Bool(false)))) &&
      r.value.components == (if Truthy(components) then ComponentLines(components.fields, show) else NoComponents)
  {
    var subject := SubjectPrefix + reference;
    var configData := ConfigOf(inquiry);
    if !configData.Obj? {
      return Raised(AttributeError);
    }
    var components := ComponentsOf(configData.fields);
    var device := GetOr(configData.fields, "device", Str(NotAvailable));
    var segment := GetOr(configData.fields, "segment", Str(NotAvailable));
    var budget := GetOr(configData.fields, "budget", Str(NotAvailable));
    var totalPrice := GetOr(configData.fields, "totalPrice", Str(NotAvailable));
    var assemblyService := GetOr(configData.fields, "assemblyService", Bool(false));
    var componentsText;
    if Truthy(components) {
      if !components.Obj? {
        return Raised(AttributeError);
      }
      componentsText := ListComponents(components.fields, show);
    } else {
      componentsText := NoComponents;
    }
    var assembly := if Truthy(assemblyService) then AssemblyYes else AssemblyNo;
    r := Ok(Notification(subject, device, segment, budget, totalPrice, assembly, componentsText));
  }
}
