/** The starting-equipment picker of the builder: it reads the loosely typed option groups
    of a class (`from` may be a list, an object holding an `options` list, an
    `equipment_category` object, or something unrecognised), derives a display name for
    every option from a fixed priority of fields, keeps the chosen value per group and
    reports the equipment method and the choices to its parent. */
module EquipmentSelection {

  import opened Wrappers
  import opened Text

  // ---------------------------------------------------------------------------
  // Shapes of the class data
  // ---------------------------------------------------------------------------

  /** An `{ name }` reference (`of`, `equipment`, `item`). */
  datatype NamedRef = NamedRef(name: string)

  /** `{ choose, type }` of an `equipment_option` field. */
  datatype EquipmentOptionRef = EquipmentOptionRef(choose: int, kind: string)

  /** An option object; each field is absent (None) or present with its value. */
  datatype OptionItem = OptionItem(
    manualName: Option<string>,
    optionType: Option<string>,
    of: Option<NamedRef>,
    choiceDesc: Option<string>,
    equipment: Option<NamedRef>,
    equipmentOption: Option<EquipmentOptionRef>,
    item: Option<NamedRef>,
    name: Option<string>,
    count: Option<int>,
    quantity: Option<int>)

  /** An entry of an options list: an object, or a value of another type (a string, a number). */
  datatype OptionEntry = ObjectEntry(obj: OptionItem) | NonObjectEntry

  /** The `options` key of an object-shaped `from`. */
  datatype OptionsField = NoOptionsKey | OptionsArray(entries: seq<OptionEntry>) | OptionsNotArray

  /** The `from` field of an option group. `Missing` covers every falsy value; `FromObject`
      records the `options` key and, when the `equipment_category` key is present, the
      category's name. */
  datatype FromValue =
    | Missing
    | FromArray(entries: seq<OptionEntry>)
    | FromObject(options: OptionsField, category: Option<string>)
    | FromOther

  /** One option group: how many to choose, the options and an optional description. */
  datatype EquipmentOption = EquipmentOption(choose: int, from: FromValue, desc: Option<string>)

  const AnyPrefix: string := "Herhangi bir "
  const UnknownItem: string := "Bilinmeyen Eşya"

  /** JavaScript truthiness of an optional string. */
  predicate Truthy(s: Option<string>)
  {
    s.Some? && s.value != ""
  }

  /** A synthetic option carrying only a `manual_name`. */
  function ManualOption(name: string): OptionEntry
  {
    ObjectEntry(OptionItem(Some(name), None, None, None, None, None, None, None, None, None))
  }

  // ---------------------------------------------------------------------------
  // getOptionsList
  // ---------------------------------------------------------------------------

  /** The usable options of a group. */
  function GetOptionsList(opt: EquipmentOption): (r: seq<OptionEntry>)
    ensures opt.from.Missing? || opt.from.FromOther? ==> r == []
    ensures opt.from.FromArray? ==> r == opt.from.entries
    ensures opt.from.FromObject? && opt.from.options.OptionsArray? ==> r == opt.from.options.entries
    ensures opt.from.FromObject? && !opt.from.options.OptionsArray? ==>
              r == if opt.from.category.Some? then [ManualOption(AnyPrefix + opt.from.category.value)] else []
  {
    match opt.from
    case Missing => []
    case FromArray(entries) => entries
    case FromObject(options, category) =>
      if options.OptionsArray? then options.entries
      else if category.Some? then [ManualOption(AnyPrefix + category.value)]
      else []
    case FromOther => []
  }

  /** A category group is offered as exactly one option, "Herhangi bir <category>". */
  lemma CategoryGivesOneOption(opt: EquipmentOption)
    requires opt.from.FromObject? && !opt.from.options.OptionsArray? && opt.from.category.Some?
    ensures |GetOptionsList(opt)| == 1
    ensures GetOptionsList(opt)[0].obj.manualName == Some(AnyPrefix + opt.from.category.value)
    ensures DisplayName(GetOptionsList(opt)[0]) == AnyPrefix + opt.from.category.value
  {
  }

  // ---------------------------------------------------------------------------
  // The display name of an option
  // ---------------------------------------------------------------------------

  /** The name before the count and quantity suffixes: the first field present, in the
      order manual name, counted reference, choice description, equipment, equipment
      option, item, name, with "Bilinmeyen Eşya" when none is. */
  function BaseName(e: OptionEntry): string
  {
    if e.NonObjectEntry? then UnknownItem
    else
      var item := e.obj;
      if Truthy(item.manualName) then item.manualName.value
      else if item.optionType == Some("counted_reference") && item.of.Some? then item.of.value.name
      else if item.optionType == Some("choice") && item.choiceDesc.Some? then UpperFirst(item.choiceDesc.value)
      else if item.equipment.Some? then item.equipment.value.name
      else if item.equipmentOption.Some? then
        AnyPrefix + IntToString(item.equipmentOption.value.choose) + " " + item.equipmentOption.value.kind
      else if item.item.Some? then item.item.value.name
      else if Truthy(item.name) then item.name.value
      else UnknownItem
  }

  /** ` (xN)` when the optional number is greater than one, nothing otherwise. */
  function TimesSuffix(n: Option<int>): (s: string)
    ensures n.Some? && n.value > 1 ==> s == " (x" + NatToString(n.value) + ")"
    ensures !(n.Some? && n.value > 1) ==> s == ""
  {
    if n.Some? && n.value > 1 then " (x" + IntToString(n.value) + ")" else ""
  }

  /** The label and value of an option in the group's select. */
  function DisplayName(e: OptionEntry): (name: string)
    ensures e.NonObjectEntry? ==> name == UnknownItem
    ensures e.ObjectEntry? ==>
              name == FirstPresent(Candidates(e.obj), UnknownItem)
                      + TimesSuffix(e.obj.count) + TimesSuffix(e.obj.quantity)
  {
    if e.NonObjectEntry? then UnknownItem
    else
      BaseNameIsFirstPresent(e.obj);
      BaseName(e) + TimesSuffix(e.obj.count) + TimesSuffix(e.obj.quantity)
  }

  // The priority chain as a list: the reference definition the if-chain is checked against.

  /** The candidate names of an option object, in priority order; None where the field
      does not qualify. */
  function Candidates(item: OptionItem): (cs: seq<Option<string>>)
    ensures |cs| == 7
  {
    [ if Truthy(item.manualName) then item.manualName else None,
      if item.optionType == Some("counted_reference") && item.of.Some? then Some(item.of.value.name) else None,
      if item.optionType == Some("choice") && item.choiceDesc.Some? then Some(UpperFirst(item.choiceDesc.value)) else None,
      if item.equipment.Some? then Some(item.equipment.value.name) else None,
      if item.equipmentOption.Some? then
        Some(AnyPrefix + IntToString(item.equipmentOption.value.choose) + " " + item.equipmentOption.value.kind)
      else None,
      if item.item.Some? then Some(item.item.value.name) else None,
      if Truthy(item.name) then item.name else None ]
  }

  /** The first present candidate, or `default`. */
  function FirstPresent(cs: seq<Option<string>>, default: string): (r: string)
    ensures (forall k :: 0 <= k < |cs| ==> cs[k].None?) ==> r == default
    ensures forall k :: 0 <= k < |cs| && cs[k].Some? && (forall j :: 0 <= j < k ==> cs[j].None?) ==> r == cs[k].value
  {
    if |cs| == 0 then default
    else if cs[0].Some? then cs[0].value
    else FirstPresent(cs[1..], default)
  }

  /** The if-chain picks the first present candidate. */
  lemma BaseNameIsFirstPresent(item: OptionItem)
    ensures BaseName(ObjectEntry(item)) == FirstPresent(Candidates(item), UnknownItem)
  {
    var cs := Candidates(item);
    if cs[0].Some? {
    } else if cs[1].Some? {
      assert forall j :: 0 <= j < 1 ==> cs[j].None?;
    } else if cs[2].Some? {
      assert forall j :: 0 <= j < 2 ==> cs[j].None?;
    } else if cs[3].Some? {
      assert forall j :: 0 <= j < 3 ==> cs[j].None?;
    } else if cs[4].Some? {
      assert forall j :: 0 <= j < 4 ==> cs[j].None?;
    } else if cs[5].Some? {
      assert forall j :: 0 <= j < 5 ==> cs[j].None?;
    } else if cs[6].Some? {
      assert forall j :: 0 <= j < 6 ==> cs[j].None?;
    } else {
      assert forall j :: 0 <= j < |cs| ==> cs[j].None?;
    }
  }

  /** "Bilinmeyen Eşya" is chosen exactly when no field qualifies, or when the entry is
      not an object. */
  lemma UnknownIffNoCandidate(item: OptionItem)
    requires forall k :: 0 <= k < 7 ==> Candidates(item)[k] != Some(UnknownItem)
    ensures BaseName(ObjectEntry(item)) == UnknownItem <==>
            forall k :: 0 <= k < 7 ==> Candidates(item)[k].None?
  {
    BaseNameIsFirstPresent(item);
    var cs := Candidates(item);
    if exists k :: 0 <= k < 7 && cs[k].Some? {
      var k :| 0 <= k < 7 && cs[k].Some? && forall j :: 0 <= j < k ==> cs[j].None? by {
        FirstSome(cs);
      }
    }
  }

  lemma FirstSome(cs: seq<Option<string>>)
    requires exists k :: 0 <= k < |cs| && cs[k].Some?
    ensures exists k :: 0 <= k < |cs| && cs[k].Some? && forall j :: 0 <= j < k ==> cs[j].None?
  {
    var k :| 0 <= k < |cs| && cs[k].Some?;
    var i := 0;
    while i < k && cs[i].None?
      invariant 0 <= i <= k
      invariant forall j :: 0 <= j < i ==> cs[j].None?
    {
      i := i + 1;
    }
  }

  /** A truthy `manual_name` wins over every other field. */
  lemma ManualNameWins(item: OptionItem)
    requires Truthy(item.manualName)
    ensures BaseName(ObjectEntry(item)) == item.manualName.value
  {
  }

  /** A choice description is shown with its first letter in upper case. */
  lemma ChoiceDescriptionCapitalised(item: OptionItem)
    requires !Truthy(item.manualName) && item.optionType == Some("choice") && item.choiceDesc.Some?
    requires |item.choiceDesc.value| > 0
    ensures var n := BaseName(ObjectEntry(item));
            |n| == |item.choiceDesc.value| && n[0] == Upper(item.choiceDesc.value[0])
            && n[1..] == item.choiceDesc.value[1..]
  {
  }

  /** `{ equipment: { name: "Longsword" }, quantity: 2 }` is shown as "Longsword (x2)". */
  lemma QuantitySuffixExample()
    ensures DisplayName(ObjectEntry(OptionItem(None, None, None, None, Some(NamedRef("Longsword")),
                                               None, None, None, None, Some(2)))) == "Longsword (x2)"
  {
  }

  /** The count suffix comes before the quantity suffix. */
  lemma CountBeforeQuantity(item: OptionItem, base: string, c: nat, q: nat)
    requires BaseName(ObjectEntry(item)) == base
    requires item.count == Some(c) && item.quantity == Some(q) && c > 1 && q > 1
    ensures DisplayName(ObjectEntry(item)) == base + " (x" + NatToString(c) + ")" + " (x" + NatToString(q) + ")"
  {
  }

  // ---------------------------------------------------------------------------
  // renderOption
  // ---------------------------------------------------------------------------

  /** What a group shows: an error box (with a console warning when `from` was present),
      the multiple-choice notice, or a select over the option labels. */
  datatype GroupView = Unparsed(warned: bool) | MultiChoice(choose: int) | SingleSelect(labels: seq<string>)

  function RenderGroup(opt: EquipmentOption): (v: GroupView)
    ensures v.Unparsed? <==> |GetOptionsList(opt)| == 0
    ensures v.Unparsed? ==> (v.warned <==> !opt.from.Missing?)
    ensures v.MultiChoice? <==> |GetOptionsList(opt)| > 0 && opt.choose != 1
    ensures v.SingleSelect? ==>
              |v.labels| == |GetOptionsList(opt)|
              && forall i :: 0 <= i < |v.labels| ==> v.labels[i] == DisplayName(GetOptionsList(opt)[i])
  {
    var list := GetOptionsList(opt);
    if |list| == 0 then Unparsed(!opt.from.Missing?)
    else if opt.choose != 1 then MultiChoice(opt.choose)
    else SingleSelect(seq(|list|, i requires 0 <= i < |list| => DisplayName(list[i])))
  }

  /** A group offers a selection exactly when it chooses one and has options. */
  lemma SelectableIff(opt: EquipmentOption)
    ensures RenderGroup(opt).SingleSelect? <==> opt.choose == 1 && |GetOptionsList(opt)| > 0
  {
  }

  // ---------------------------------------------------------------------------
  // The component's state
  // ---------------------------------------------------------------------------

  datatype EquipmentMethod = ClassMethod | GoldMethod

  /** What `onSelectionChange` receives. */
  datatype Selection = Selection(kind: EquipmentMethod, gold: int, choices: seq<string>)

  /** The chosen values of groups 0 .. n-1, in ascending group order (what `Object.values`
      gives on a record with integer keys). */
  function ValuesBelow(choices: map<nat, string>, n: nat): seq<string>
  {
    if n == 0 then []
    else ValuesBelow(choices, n - 1) + (if n - 1 in choices then [choices[n - 1]] else [])
  }

  /** A value is reported exactly when some group below `n` holds it. */
  lemma {:induction false} ValuesBelowMembers(choices: map<nat, string>, n: nat, x: string)
    ensures x in ValuesBelow(choices, n) <==> exists k: nat :: k < n && k in choices && choices[k] == x
  {
    if n > 0 {
      ValuesBelowMembers(choices, n - 1, x);
      if n - 1 in choices && choices[n - 1] == x {
        assert x in ValuesBelow(choices, n);
      }
    }
  }

  /** When every group below `n` has a choice, the report is those choices by group index. */
  lemma {:induction false} ValuesBelowFull(choices: map<nat, string>, n: nat)
    requires forall k: nat :: k < n ==> k in choices
    ensures |ValuesBelow(choices, n)| == n
    ensures forall k: nat :: k < n ==> ValuesBelow(choices, n)[k] == choices[k]
  {
    if n > 0 {
      ValuesBelowFull(choices, n - 1);
    }
  }

  /** The report for an equipment method and a choice map with keys below `groups`. */
  function Report(current: EquipmentMethod, choices: map<nat, string>, groups: nat): (s: Selection)
    ensures s.kind == current
    ensures current == GoldMethod ==> s.gold == 100 && s.choices == []
    ensures current == ClassMethod ==> s.gold == 0 && s.choices == ValuesBelow(choices, groups)
  {
    match current
    case GoldMethod => Selection(GoldMethod, 100, [])
    case ClassMethod => Selection(ClassMethod, 0, ValuesBelow(choices, groups))
  }

  class EquipmentSelection {
    var current: EquipmentMethod
    var choices: map<nat, string>
    /** The class's option groups (`starting_equipment.options`, empty when missing). */
    const options: seq<EquipmentOption>

    /** Choices are only ever recorded for existing groups. */
    ghost predicate Valid()
      reads this
    {
      forall k :: k in choices ==> k < |options|
    }

    constructor (options: seq<EquipmentOption>)
      ensures this.options == options && current == ClassMethod && choices == map[]
      ensures Valid()
    {
      this.options := options;
      current := ClassMethod;
      choices := map[];
    }

    /** `notifyParent(method, choices)`. */
    method NotifyParent() returns (s: Selection)
      requires Valid()
      ensures s == Report(current, choices, |options|)
    {
      if current == GoldMethod {
        s := Selection(GoldMethod, 100, []);
      } else {
        var values := [];
        var k := 0;
        while k < |options|
          invariant 0 <= k <= |options|
          invariant values == ValuesBelow(choices, k)
        {
          if k in choices {
            values := values + [choices[k]];
          }
          k := k + 1;
        }
        s := Selection(ClassMethod, 0, values);
      }
    }

    /** `handleChoice(optionIndex, value)`, then the notification the state change triggers. */
    method HandleChoice(optionIndex: nat, value: string) returns (s: Selection)
      requires Valid() && optionIndex < |options|
      modifies this
      ensures choices == old(choices)[optionIndex := value] && current == old(current)
      ensures Valid()
      ensures s == Report(current, choices, |options|)
    {
      choices := choices[optionIndex := value];
      s := NotifyParent();
    }

    /** The tab handler `setMethod`, then the notification. The choices are kept. */
    method SetMethod(m: EquipmentMethod) returns (s: Selection)
      requires Valid()
      modifies this
      ensures current == m && choices == old(choices)
      ensures Valid()
      ensures s == Report(current, choices, |options|)
    {
      current := m;
      s := NotifyParent();
    }
  }

  /** Choosing again in a group replaces that group's value in the report and keeps the others. */
  lemma {:induction false} ReplaceChoice(choices: map<nat, string>, n: nat, i: nat, v: string, k: nat)
    requires k < n && k in choices && k != i
    ensures choices[k] in ValuesBelow(choices[i := v], n)
  {
    var updated := choices[i := v];
    assert k in updated && updated[k] == choices[k];
    ValuesBelowMembers(updated, n, choices[k]);
  }
}
