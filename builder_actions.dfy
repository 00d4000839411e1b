/** The `createCharacter` server action of the builder: it writes the character row and,
    for the class-equipment method, resolves the starting equipment into inventory rows:
    mandatory entries expanded by quantity, the user's choices appended, the seven named
    packs unpacked, and every name matched against the item catalog (case-insensitive
    exact match first, substring match second, otherwise skipped). */
module BuilderActions {

  import opened Wrappers
  import opened Text
  import opened Abilities

  // ---------------------------------------------------------------------------
  // Shapes of the data
  // ---------------------------------------------------------------------------

  /** A `{ name }` reference object of the class data. */
  datatype NamedRef = NamedRef(name: Option<string>)

  /** One mandatory entry of a class's starting equipment: `{ equipment: { name }, quantity }`,
      or a bare `{ name }`. */
  datatype MandatoryEntry = MandatoryEntry(equipment: Option<NamedRef>, name: Option<string>,
                                           quantity: Option<int>)

  /** The `starting_equipment` column of a class row, as far as this action reads it. */
  datatype StartingEquipment = StartingEquipment(mandatory: Option<seq<MandatoryEntry>>)

  /** `{ name, qty }`: one line to resolve against the catalog. */
  datatype ItemRequest = ItemRequest(name: string, qty: int)

  /** A row of the `items` table, as far as the matcher reads it. */
  datatype CatalogItem = CatalogItem(id: string, name: string)

  /** A row of the `character_inventory` table. */
  datatype InventoryRow = InventoryRow(characterId: string, itemId: string, quantity: int,
                                       isEquipped: bool)

  datatype Currency = Currency(gp: int, sp: int, cp: int)

  /** A row of the `characters` table, as this action writes it. */
  datatype CharacterRow = CharacterRow(id: string, userId: string, name: string,
                                       raceId: string, classId: string, stats: Stats,
                                       level: int, currentHp: int, maxHp: int,
                                       background: string, appearance: string,
                                       imageUrl: Option<string>, currency: Currency)

  /** The form the action receives. The optional fields may be absent. */
  datatype CharacterForm = CharacterForm(name: string, raceId: string, classId: string,
                                         stats: Stats, background: string, appearance: string,
                                         imageUrl: Option<string>, startingGold: Option<int>,
                                         equipmentMethod: Option<string>,
                                         selectedEquipment: Option<seq<string>>)

  /** The authenticated user. */
  datatype User = User(id: string)

  /** What the character insert gives back: the new row's id, an error, or neither. */
  datatype CharacterInsert = InsertReturned(id: string) | InsertFailed(message: string) | InsertNoRow

  /** How the action ends: normally, with the new character's id, or by throwing. */
  datatype CreateOutcome = Created(characterId: string) | Thrown(message: string)

  const NoSessionMessage: string := "Kullanıcı oturumu bulunamadı"
  const CreateFailedPrefix: string := "Karakter oluşturulurken bir hata oluştu: "

  /** How `createCharacter` ends for a session and a character insert. It returns normally
      exactly when there is a user and the insert gives back a row; every thrown message
      is non-empty, so a caller's `error.message || fallback` always shows it. */
  function ActionOutcome(user: Option<User>, insert: CharacterInsert): (r: CreateOutcome)
    ensures r.Created? <==> user.Some? && insert.InsertReturned?
    ensures r.Created? ==> r.characterId == insert.id
    ensures r.Thrown? ==> r.message != ""
    ensures user.None? ==> r == Thrown(NoSessionMessage)
    ensures user.Some? && !insert.InsertReturned? ==> r.Thrown? && CreateFailedPrefix <= r.message
    ensures user.Some? && insert.InsertFailed? ==> r.message[|CreateFailedPrefix|..] == insert.message
  {
    if user.None? then Thrown(NoSessionMessage)
    else match insert
      case InsertFailed(message) => Thrown(CreateFailedPrefix + message)
      case InsertNoRow => Thrown(CreateFailedPrefix + "undefined")
      case InsertReturned(id) => Created(id)
  }

  // ---------------------------------------------------------------------------
  // The character row
  // ---------------------------------------------------------------------------

  /** `startingGold ? { gp: startingGold, sp: 0, cp: 0 } : { gp: 0, sp: 0, cp: 0 }`. */
  function StartingCurrency(startingGold: Option<int>): (c: Currency)
    ensures c.gp == startingGold.GetOr(0) && c.sp == 0 && c.cp == 0
  {
    if startingGold.Some? && startingGold.value != 0 then Currency(startingGold.value, 0, 0)
    else Currency(0, 0, 0)
  }

  /** The row the action inserts: level 1, 10 of 10 hit points, the form's scores. */
  function NewCharacter(id: string, userId: string, form: CharacterForm): (row: CharacterRow)
    ensures row.id == id && row.userId == userId && row.stats == form.stats
    ensures row.level == 1 && row.currentHp == 10 && row.maxHp == 10
    ensures row.currency.gp == form.startingGold.GetOr(0) && row.currency.sp == 0 && row.currency.cp == 0
  {
    CharacterRow(id, userId, form.name, form.raceId, form.classId, form.stats, 1, 10, 10,
                 form.background, form.appearance, form.imageUrl,
                 StartingCurrency(form.startingGold))
  }

  /** Inventory is resolved only for the class-equipment method with a class chosen. */
  predicate ResolvesInventory(form: CharacterForm)
  {
    form.equipmentMethod == Some("class") && form.classId != ""
  }

  // ---------------------------------------------------------------------------
  // Step 1 and 2: the list of item names
  // ---------------------------------------------------------------------------

  /** `n` copies of `x`; none when `n` is not positive (the `for (i = 0; i < qty; i++)` loop). */
  function Repeat(x: string, n: int): (r: seq<string>)
    ensures |r| == if n > 0 then n else 0
    ensures forall k :: 0 <= k < |r| ==> r[k] == x
    decreases n
  {
    if n <= 0 then [] else Repeat(x, n - 1) + [x]
  }

  /** `m.equipment ? m.equipment.name : m.name`, kept only when it is a non-empty string. */
  function EntryName(m: MandatoryEntry): (n: Option<string>)
    ensures n.Some? ==> n.value != ""
    ensures m.equipment.Some? ==> (n.Some? <==> m.equipment.value.name.Some? && m.equipment.value.name.value != "")
    ensures n.Some? && m.equipment.Some? ==> n == m.equipment.value.name
    ensures n.Some? && m.equipment.None? ==> n == m.name
    ensures m.equipment.None? ==> (n.Some? <==> m.name.Some? && m.name.value != "")
  {
    var name := if m.equipment.Some? then m.equipment.value.name else m.name;
    if name.Some? && name.value != "" then name else None
  }

  /** `m.quantity || 1`: an absent or zero quantity counts as one. */
  function EntryQuantity(m: MandatoryEntry): (q: int)
    ensures q != 0
    ensures m.quantity.Some? && m.quantity.value != 0 ==> q == m.quantity.value
    ensures m.quantity.None? || m.quantity.value == 0 ==> q == 1
  {
    match m.quantity
    case None => 1
    case Some(q) => if q == 0 then 1 else q
  }

  /** The names one mandatory entry contributes: `qty` copies of its name, or nothing. */
  function EntryNames(m: MandatoryEntry): (r: seq<string>)
    ensures EntryName(m).None? ==> r == []
    ensures EntryName(m).Some? ==> r == Repeat(EntryName(m).value, EntryQuantity(m))
  {
    match EntryName(m)
    case None => []
    case Some(n) => Repeat(n, EntryQuantity(m))
  }

  /** The names of all mandatory entries, entry after entry. */
  function MandatoryNames(ms: seq<MandatoryEntry>): seq<string>
  {
    if |ms| == 0 then [] else EntryNames(ms[0]) + MandatoryNames(ms[1..])
  }

  /** The names of a concatenation are the names of its parts, in order. */
  lemma {:induction false} MandatoryNamesAppend(a: seq<MandatoryEntry>, b: seq<MandatoryEntry>)
    ensures MandatoryNames(a + b) == MandatoryNames(a) + MandatoryNames(b)
  {
    if |a| == 0 {
      assert a + b == b;
    } else {
      assert (a + b)[1..] == a[1..] + b;
      MandatoryNamesAppend(a[1..], b);
    }
  }

  /** The copies the inner loop pushes for one entry are that entry's names. */
  lemma EntryNamesOfCopies(m: MandatoryEntry, name: Option<string>, qty: int)
    requires qty == (if m.quantity.None? || m.quantity.value == 0 then 1 else m.quantity.value)
    requires name == (if m.equipment.Some? then m.equipment.value.name else m.name)
    ensures EntryNames(m) == if name.Some? && name.value != "" then Repeat(name.value, qty) else []
  {
  }

  lemma NextMandatoryNames(ms: seq<MandatoryEntry>, j: nat)
    requires j < |ms|
    ensures MandatoryNames(ms[..j + 1]) == MandatoryNames(ms[..j]) + EntryNames(ms[j])
  {
    assert ms[..j + 1] == ms[..j] + [ms[j]];
    assert [ms[j]][1..] == [];
    MandatoryNamesAppend(ms[..j], [ms[j]]);
  }

  /** The mandatory list of a class, when the class row and its `mandatory` field exist. */
  function MandatoryOf(equipment: Option<StartingEquipment>): seq<MandatoryEntry>
  {
    if equipment.Some? && equipment.value.mandatory.Some? then equipment.value.mandatory.value else []
  }

  /** `itemsToAdd`: the mandatory names, followed by the user's choices in order. */
  function ItemsToAdd(equipment: Option<StartingEquipment>, selected: Option<seq<string>>): (r: seq<string>)
    ensures |r| == |MandatoryNames(MandatoryOf(equipment))| + |selected.GetOr([])|
    ensures r[..|MandatoryNames(MandatoryOf(equipment))|] == MandatoryNames(MandatoryOf(equipment))
    ensures r[|MandatoryNames(MandatoryOf(equipment))|..] == selected.GetOr([])
  {
    MandatoryNames(MandatoryOf(equipment)) + selected.GetOr([])
  }

  /** The body of the outer loop of step 1 for one entry `m`: its name pushed `qty` times
      (the inner loop), or nothing when the entry has no name. */
  method PushEntry(items: seq<string>, m: MandatoryEntry) returns (itemsToAdd: seq<string>)
    ensures itemsToAdd == items + EntryNames(m)
  {
    itemsToAdd := items;
    var qty := if m.quantity.None? || m.quantity.value == 0 then 1 else m.quantity.value;
    var name := if m.equipment.Some? then m.equipment.value.name else m.name;
    if name.Some? && name.value != "" {
      var i := 0;
      while i < qty
        invariant 0 <= i <= (if qty > 0 then qty else 0)
        invariant itemsToAdd == items + Repeat(name.value, i)
      {
        itemsToAdd := itemsToAdd + [name.value];
        i := i + 1;
      }
    }
    EntryNamesOfCopies(m, name, qty);
  }

  /** Steps 1 and 2 of the action, with the loops of the source: every mandatory entry
      pushes its name `qty` times, then the selected choices are pushed. */
  method CollectItemsToAdd(equipment: Option<StartingEquipment>, selected: Option<seq<string>>)
    returns (itemsToAdd: seq<string>)
    ensures itemsToAdd == ItemsToAdd(equipment, selected)
  {
    itemsToAdd := [];
    if equipment.Some? && equipment.value.mandatory.Some? {
      var mandatory := equipment.value.mandatory.value;
      var j := 0;
      while j < |mandatory|
        invariant 0 <= j <= |mandatory|
        invariant itemsToAdd == MandatoryNames(mandatory[..j])
      {
        itemsToAdd := PushEntry(itemsToAdd, mandatory[j]);
        NextMandatoryNames(mandatory, j);
        j := j + 1;
      }
      assert mandatory[..j] == mandatory;
    }
    if selected.Some? {
      itemsToAdd := itemsToAdd + selected.value;
    }
  }

  // ---------------------------------------------------------------------------
  // Step 3: unpacking the named packs
  // ---------------------------------------------------------------------------

  // The contents of the seven packs, line by line.

  const ExplorersPack: seq<ItemRequest> := [
      ItemRequest("Backpack", 1), ItemRequest("Bedroll", 1), ItemRequest("Mess Kit", 1),
      ItemRequest("Tinderbox", 1), ItemRequest("Torch", 10), ItemRequest("Rations (1 day)", 10),
      ItemRequest("Waterskin", 1), ItemRequest("Rope, hempen (50 feet)", 1)]

  const DungeoneersPack: seq<ItemRequest> := [
      ItemRequest("Backpack", 1), ItemRequest("Crowbar", 1), ItemRequest("Hammer", 1),
      ItemRequest("Piton", 10), ItemRequest("Torch", 10), ItemRequest("Tinderbox", 1),
      ItemRequest("Rations (1 day)", 10), ItemRequest("Waterskin", 1),
      ItemRequest("Rope, hempen (50 feet)", 1)]

  const BurglarsPack: seq<ItemRequest> := [
      ItemRequest("Backpack", 1), ItemRequest("Ball bearings (bag of 1,000)", 1),
      ItemRequest("String (10 feet)", 1), ItemRequest("Bell", 1), ItemRequest("Candle", 5),
      ItemRequest("Crowbar", 1), ItemRequest("Hammer", 1), ItemRequest("Piton", 10),
      ItemRequest("Lantern, Hooded", 1), ItemRequest("Oil (flask)", 2),
      ItemRequest("Rations (1 day)", 5), ItemRequest("Tinderbox", 1), ItemRequest("Waterskin", 1)]

  const PriestsPack: seq<ItemRequest> := [
      ItemRequest("Backpack", 1), ItemRequest("Blanket", 1), ItemRequest("Candle", 10),
      ItemRequest("Tinderbox", 1), ItemRequest("Alms Box", 1), ItemRequest("Incense (block)", 2),
      ItemRequest("Censer", 1), ItemRequest("Vestments", 1), ItemRequest("Rations (1 day)", 2),
      ItemRequest("Waterskin", 1)]

  const ScholarsPack: seq<ItemRequest> := [
      ItemRequest("Backpack", 1), ItemRequest("Book", 1), ItemRequest("Ink (1 ounce bottle)", 1),
      ItemRequest("Ink Pen", 1), ItemRequest("Parchment (one sheet)", 10), ItemRequest("Sand", 1),
      ItemRequest("Knife", 1)]

  const DiplomatsPack: seq<ItemRequest> := [
      ItemRequest("Chest", 1), ItemRequest("Case, Map or Scroll", 2), ItemRequest("Clothes, Fine", 1),
      ItemRequest("Ink (1 ounce bottle)", 1), ItemRequest("Ink Pen", 1), ItemRequest("Lamp", 1),
      ItemRequest("Oil (flask)", 2), ItemRequest("Paper (one sheet)", 5),
      ItemRequest("Perfume (vial)", 1), ItemRequest("Sealing Wax", 1), ItemRequest("Soap", 1)]

  const EntertainersPack: seq<ItemRequest> := [
      ItemRequest("Backpack", 1), ItemRequest("Bedroll", 1), ItemRequest("Clothes, Costume", 2),
      ItemRequest("Candle", 5), ItemRequest("Rations (1 day)", 5), ItemRequest("Waterskin", 1),
      ItemRequest("Disguise Kit", 1)]

  /** `PACK_CONTENTS`: the seven packs and their contents, keyed by the exact pack name. */
  const Packs: map<string, seq<ItemRequest>> := map[
    "Explorer's Pack" := ExplorersPack, "Dungeoneer's Pack" := DungeoneersPack,
    "Burglar's Pack" := BurglarsPack, "Priest's Pack" := PriestsPack,
    "Scholar's Pack" := ScholarsPack, "Diplomat's Pack" := DiplomatsPack,
    "Entertainer's Pack" := EntertainersPack
  ]

  /** The lines one name becomes under the table `packs`: a pack's contents in order, or
      the name with quantity one. */
  function UnpackName(packs: map<string, seq<ItemRequest>>, name: string): (r: seq<ItemRequest>)
    ensures name in packs ==> r == packs[name]
    ensures name !in packs ==> r == [ItemRequest(name, 1)]
  {
    if name in packs then packs[name] else [ItemRequest(name, 1)]
  }

  /** `finalItemsToInsert`: every name unpacked, in order. */
  function Unpack(packs: map<string, seq<ItemRequest>>, names: seq<string>): seq<ItemRequest>
  {
    if |names| == 0 then [] else UnpackName(packs, names[0]) + Unpack(packs, names[1..])
  }

  lemma {:induction false} UnpackAppend(packs: map<string, seq<ItemRequest>>, a: seq<string>, b: seq<string>)
    ensures Unpack(packs, a + b) == Unpack(packs, a) + Unpack(packs, b)
  {
    if |a| == 0 {
      assert a + b == b;
    } else {
      assert (a + b)[1..] == a[1..] + b;
      UnpackAppend(packs, a[1..], b);
    }
  }

  /** Step 3 of the action, with the loop of the source. */
  method UnpackItems(itemsToAdd: seq<string>) returns (finalItems: seq<ItemRequest>)
    ensures finalItems == Unpack(Packs, itemsToAdd)
  {
    finalItems := [];
    var k := 0;
    while k < |itemsToAdd|
      invariant 0 <= k <= |itemsToAdd|
      invariant finalItems == Unpack(Packs, itemsToAdd[..k])
    {
      var itemName := itemsToAdd[k];
      if itemName in Packs {
        finalItems := finalItems + Packs[itemName];
      } else {
        finalItems := finalItems + [ItemRequest(itemName, 1)];
      }
      assert itemsToAdd[..k + 1] == itemsToAdd[..k] + [itemName];
      assert Unpack(Packs, [itemName]) == UnpackName(Packs, itemName) by {
        assert [itemName][1..] == [];
      }
      UnpackAppend(Packs, itemsToAdd[..k], [itemName]);
      k := k + 1;
    }
    assert itemsToAdd[..k] == itemsToAdd;
  }

  /** No line of `lines` names a pack of `packs`, and every line has a positive quantity. */
  predicate PackLinesOk(packs: map<string, seq<ItemRequest>>, lines: seq<ItemRequest>)
  {
    forall k :: 0 <= k < |lines| ==> lines[k].name !in packs && lines[k].qty >= 1
  }

  /** Every pack of the table holds only plain items, each at least once. */
  predicate PackTableOk(packs: map<string, seq<ItemRequest>>)
  {
    forall p :: p in packs ==> PackLinesOk(packs, packs[p])
  }

  lemma ExplorersPackLinesOk()
    ensures PackLinesOk(Packs, ExplorersPack)
  {
  }

  lemma DungeoneersPackLinesOk()
    ensures PackLinesOk(Packs, DungeoneersPack)
  {
  }

  lemma BurglarsPackLinesOk()
    ensures PackLinesOk(Packs, BurglarsPack)
  {
  }

  lemma PriestsPackLinesOk()
    ensures PackLinesOk(Packs, PriestsPack)
  {
  }

  lemma ScholarsPackLinesOk()
    ensures PackLinesOk(Packs, ScholarsPack)
  {
  }

  lemma DiplomatsPackLinesOk()
    ensures PackLinesOk(Packs, DiplomatsPack)
  {
  }

  lemma EntertainersPackLinesOk()
    ensures PackLinesOk(Packs, EntertainersPack)
  {
  }

  /** No pack's contents name another pack, and every line of a pack has a positive quantity. */
  lemma PackContentsAreNotPacks()
    ensures PackTableOk(Packs)
    ensures forall p, k :: p in Packs && 0 <= k < |Packs[p]| ==> Packs[p][k].name !in Packs
  {
    ExplorersPackLinesOk();
    DungeoneersPackLinesOk();
    BurglarsPackLinesOk();
    PriestsPackLinesOk();
    ScholarsPackLinesOk();
    DiplomatsPackLinesOk();
    EntertainersPackLinesOk();
  }

  /** Unpacking with a table of plain packs is complete: no pack line survives it, and every
      line has a positive quantity. */
  lemma {:induction false} NoPackAfterUnpack(packs: map<string, seq<ItemRequest>>, names: seq<string>)
    requires PackTableOk(packs)
    ensures forall k :: 0 <= k < |Unpack(packs, names)| ==>
              Unpack(packs, names)[k].name !in packs && Unpack(packs, names)[k].qty >= 1
  {
    if |names| > 0 {
      NoPackAfterUnpack(packs, names[1..]);
      if names[0] in packs {
        assert PackLinesOk(packs, packs[names[0]]);
      }
    }
  }

  // ---------------------------------------------------------------------------
  // Step 4: matching names against the catalog
  // ---------------------------------------------------------------------------

  /** The position of the first catalog row whose name equals `name`, ignoring case
      (the `ilike(name)` query with `limit(1)`). */
  function FirstExact(catalog: seq<CatalogItem>, name: string): (r: Option<nat>)
    ensures r.Some? ==> r.value < |catalog| && EqualsIgnoreCase(catalog[r.value].name, name)
                        && forall j :: 0 <= j < r.value ==> !EqualsIgnoreCase(catalog[j].name, name)
    ensures r.None? ==> forall j :: 0 <= j < |catalog| ==> !EqualsIgnoreCase(catalog[j].name, name)
  {
    if |catalog| == 0 then None
    else if EqualsIgnoreCase(catalog[0].name, name) then Some(0)
    else match FirstExact(catalog[1..], name)
      case None => None
      case Some(i) => Some(i + 1)
  }

  /** The position of the first catalog row whose name contains `name`, ignoring case
      (the `ilike('%name%')` query with `limit(1)`). */
  function FirstContaining(catalog: seq<CatalogItem>, name: string): (r: Option<nat>)
    ensures r.Some? ==> r.value < |catalog| && ContainsIgnoreCase(catalog[r.value].name, name)
                        && forall j :: 0 <= j < r.value ==> !ContainsIgnoreCase(catalog[j].name, name)
    ensures r.None? ==> forall j :: 0 <= j < |catalog| ==> !ContainsIgnoreCase(catalog[j].name, name)
  {
    if |catalog| == 0 then None
    else if ContainsIgnoreCase(catalog[0].name, name) then Some(0)
    else match FirstContaining(catalog[1..], name)
      case None => None
      case Some(i) => Some(i + 1)
  }

  /** The catalog id a name resolves to: the exact hit if there is one, the loose hit otherwise. */
  function MatchItem(catalog: seq<CatalogItem>, name: string): (r: Option<string>)
    ensures FirstExact(catalog, name).Some? ==> r == Some(catalog[FirstExact(catalog, name).value].id)
    ensures FirstExact(catalog, name).None? && FirstContaining(catalog, name).Some? ==>
              r == Some(catalog[FirstContaining(catalog, name).value].id)
  {
    match FirstExact(catalog, name)
    case Some(i) => Some(catalog[i].id)
    case None =>
      match FirstContaining(catalog, name)
      case Some(i) => Some(catalog[i].id)
      case None => None
  }

  /** The first exact hit wins, whatever substring hits come before it in the catalog. */
  lemma ExactMatchWins(catalog: seq<CatalogItem>, name: string, i: nat)
    requires i < |catalog| && EqualsIgnoreCase(catalog[i].name, name)
    requires forall j :: 0 <= j < i ==> !EqualsIgnoreCase(catalog[j].name, name)
    ensures MatchItem(catalog, name) == Some(catalog[i].id)
  {
  }

  /** A name resolves to nothing exactly when no catalog name contains it. */
  lemma UnmatchedIffNoSubstringHit(catalog: seq<CatalogItem>, name: string)
    ensures MatchItem(catalog, name).None? <==>
            forall j :: 0 <= j < |catalog| ==> !ContainsIgnoreCase(catalog[j].name, name)
  {
    if FirstExact(catalog, name).Some? {
      EqualsImpliesContains(catalog[FirstExact(catalog, name).value].name, name);
    }
  }

  /** "Healing Potion" resolves to the row of that name even when "Greater Healing Potion",
      which also contains it, comes first. */
  lemma HealingPotionExample()
    ensures MatchItem([CatalogItem("greater", "Greater Healing Potion"),
                       CatalogItem("plain", "Healing Potion")], "Healing Potion") == Some("plain")
  {
    var catalog := [CatalogItem("greater", "Greater Healing Potion"), CatalogItem("plain", "Healing Potion")];
    assert !EqualsIgnoreCase(catalog[0].name, "Healing Potion") by {
      assert |LowerString(catalog[0].name)| != |LowerString("Healing Potion")|;
    }
    ExactMatchWins(catalog, "Healing Potion", 1);
  }

  /** The inventory row a resolved line becomes. */
  function InventoryLine(characterId: string, itemId: string, request: ItemRequest): (row: InventoryRow)
    ensures row.characterId == characterId && row.itemId == itemId
    ensures row.quantity == request.qty && !row.isEquipped
  {
    InventoryRow(characterId, itemId, request.qty, false)
  }

  /** The rows step 4 inserts: one per line that resolves, in order; unresolved lines add nothing. */
  function InventoryRows(characterId: string, catalog: seq<CatalogItem>, requests: seq<ItemRequest>): (rows: seq<InventoryRow>)
    ensures |rows| <= |requests|
    ensures forall k :: 0 <= k < |rows| ==> rows[k].characterId == characterId && !rows[k].isEquipped
  {
    if |requests| == 0 then []
    else LineRows(characterId, catalog, requests[0]) + InventoryRows(characterId, catalog, requests[1..])
  }

  /** The rows one line contributes: its inventory row when the name resolves, none otherwise. */
  function LineRows(characterId: string, catalog: seq<CatalogItem>, request: ItemRequest): seq<InventoryRow>
  {
    match MatchItem(catalog, request.name)
    case Some(id) => [InventoryLine(characterId, id, request)]
    case None => []
  }

  lemma {:induction false} InventoryRowsAppend(characterId: string, catalog: seq<CatalogItem>, a: seq<ItemRequest>, b: seq<ItemRequest>)
    ensures InventoryRows(characterId, catalog, a + b)
            == InventoryRows(characterId, catalog, a) + InventoryRows(characterId, catalog, b)
  {
    if |a| == 0 {
      assert a + b == b;
    } else {
      assert (a + b)[1..] == a[1..] + b;
      InventoryRowsAppend(characterId, catalog, a[1..], b);
    }
  }

  lemma NextInventoryRows(characterId: string, catalog: seq<CatalogItem>, requests: seq<ItemRequest>, k: nat)
    requires k < |requests|
    ensures InventoryRows(characterId, catalog, requests[..k + 1])
            == InventoryRows(characterId, catalog, requests[..k]) + LineRows(characterId, catalog, requests[k])
  {
    assert requests[..k + 1] == requests[..k] + [requests[k]];
    assert [requests[k]][1..] == [];
    InventoryRowsAppend(characterId, catalog, requests[..k], [requests[k]]);
  }

  /** The lines whose insert goes through: `failed` holds the positions whose
      `character_inventory` insert returns an error, which the action does not look at. */
  function Kept(requests: seq<ItemRequest>, failed: set<nat>): (r: seq<ItemRequest>)
    ensures |r| <= |requests|
  {
    if |requests| == 0 then []
    else Kept(requests[..|requests| - 1], failed)
         + (if |requests| - 1 in failed then [] else [requests[|requests| - 1]])
  }

  /** Every kept line is one of the lines. */
  lemma {:induction false} KeptLinesAreLines(requests: seq<ItemRequest>, failed: set<nat>, x: ItemRequest)
    requires x in Kept(requests, failed)
    ensures x in requests
  {
    var n := |requests| - 1;
    if x !in Kept(requests[..n], failed) {
      assert x == requests[n];
    } else {
      KeptLinesAreLines(requests[..n], failed, x);
      assert requests[..n] <= requests;
    }
  }

  /** With no failing position every line is kept. */
  lemma {:induction false} KeptWithoutFailures(requests: seq<ItemRequest>, failed: set<nat>)
    requires forall k :: 0 <= k < |requests| ==> k !in failed
    ensures Kept(requests, failed) == requests
  {
    if |requests| > 0 {
      var n := |requests| - 1;
      KeptWithoutFailures(requests[..n], failed);
      assert requests[..n] + [requests[n]] == requests;
    }
  }

  /** When every insert fails no line is kept. */
  lemma {:induction false} KeptAllFailures(requests: seq<ItemRequest>, failed: set<nat>)
    requires forall k :: 0 <= k < |requests| ==> k in failed
    ensures Kept(requests, failed) == []
  {
    if |requests| > 0 {
      KeptAllFailures(requests[..|requests| - 1], failed);
    }
  }

  lemma NextKept(requests: seq<ItemRequest>, failed: set<nat>, k: nat)
    requires k < |requests|
    ensures Kept(requests[..k + 1], failed)
            == Kept(requests[..k], failed) + (if k in failed then [] else [requests[k]])
  {
    assert requests[..k + 1][..k] == requests[..k];
  }

  /** The rows that end up in the table: the rows of the lines whose insert goes through. */
  function StoredRows(characterId: string, catalog: seq<CatalogItem>, requests: seq<ItemRequest>,
                      failed: set<nat>): (rows: seq<InventoryRow>)
    ensures |rows| <= |requests|
    ensures forall k :: 0 <= k < |rows| ==> rows[k].characterId == characterId && !rows[k].isEquipped
  {
    InventoryRows(characterId, catalog, Kept(requests, failed))
  }

  /** When no insert fails the table receives a row for every line that resolves. */
  lemma StoredRowsWithoutFailures(characterId: string, catalog: seq<CatalogItem>, requests: seq<ItemRequest>)
    ensures StoredRows(characterId, catalog, requests, {}) == InventoryRows(characterId, catalog, requests)
  {
    KeptWithoutFailures(requests, {});
  }

  /** When every insert fails the table receives nothing. */
  lemma StoredRowsAllFailures(characterId: string, catalog: seq<CatalogItem>, requests: seq<ItemRequest>,
                              failed: set<nat>)
    requires forall k :: 0 <= k < |requests| ==> k in failed
    ensures StoredRows(characterId, catalog, requests, failed) == []
  {
    KeptAllFailures(requests, failed);
  }

  /** Every line gets a row exactly when every line resolves. */
  lemma {:induction false} AllRowsIffAllResolve(characterId: string, catalog: seq<CatalogItem>, requests: seq<ItemRequest>)
    ensures |InventoryRows(characterId, catalog, requests)| == |requests| <==>
            forall k :: 0 <= k < |requests| ==> MatchItem(catalog, requests[k].name).Some?
  {
    if |requests| > 0 {
      AllRowsIffAllResolve(characterId, catalog, requests[1..]);
      assert forall k :: 1 <= k < |requests| ==> requests[k] == requests[1..][k - 1];
    }
  }

  /** Each row carries the quantity of the line it came from and the id that line resolved to. */
  lemma {:induction false} RowsFollowLines(characterId: string, catalog: seq<CatalogItem>, requests: seq<ItemRequest>, k: nat)
    requires k < |InventoryRows(characterId, catalog, requests)|
    ensures exists j :: 0 <= j < |requests| && MatchItem(catalog, requests[j].name).Some?
                        && InventoryRows(characterId, catalog, requests)[k]
                           == InventoryLine(characterId, MatchItem(catalog, requests[j].name).value, requests[j])
  {
    var rows := InventoryRows(characterId, catalog, requests);
    var head := LineRows(characterId, catalog, requests[0]);
    var rest := InventoryRows(characterId, catalog, requests[1..]);
    assert rows == head + rest;
    var m := MatchItem(catalog, requests[0].name);
    if m.Some? && k == 0 {
      assert rows[0] == InventoryLine(characterId, m.value, requests[0]);
      assert 0 < |requests| && m.Some? && rows[k] == InventoryLine(characterId, m.value, requests[0]);
    } else {
      var k' := k - |head|;
      assert rows[k] == rest[k'];
      RowsFollowLines(characterId, catalog, requests[1..], k');
      var j :| 0 <= j < |requests[1..]| && MatchItem(catalog, requests[1..][j].name).Some?
               && rest[k'] == InventoryLine(characterId, MatchItem(catalog, requests[1..][j].name).value, requests[1..][j]);
      assert requests[j + 1] == requests[1..][j];
      assert MatchItem(catalog, requests[j + 1].name).Some?
             && rows[k] == InventoryLine(characterId, MatchItem(catalog, requests[j + 1].name).value, requests[j + 1]);
    }
  }

  // ---------------------------------------------------------------------------
  // Worked examples
  // ---------------------------------------------------------------------------

  /** A mandatory "Explorer's Pack" becomes the pack's eight lines and no pack line. */
  lemma ExplorersPackExample()
    ensures var names := MandatoryNames([MandatoryEntry(Some(NamedRef(Some("Explorer's Pack"))), None, Some(1))]);
            names == ["Explorer's Pack"] && Unpack(Packs, names) == ExplorersPack
            && |Unpack(Packs, names)| == 8
            && forall k :: 0 <= k < 8 ==> Unpack(Packs, names)[k].name !in Packs
  {
    var m := MandatoryEntry(Some(NamedRef(Some("Explorer's Pack"))), None, Some(1));
    assert [m][1..] == [];
    assert EntryNames(m) == ["Explorer's Pack"];
    assert ["Explorer's Pack"][1..] == [];
    PackContentsAreNotPacks();
    NoPackAfterUnpack(Packs, ["Explorer's Pack"]);
  }

  /** A mandatory "Shortsword" with quantity 2 becomes two single-unit lines. */
  lemma QuantityExpansionExample()
    ensures var names := MandatoryNames([MandatoryEntry(Some(NamedRef(Some("Shortsword"))), None, Some(2))]);
            Unpack(Packs, names) == [ItemRequest("Shortsword", 1), ItemRequest("Shortsword", 1)]
  {
    var m := MandatoryEntry(Some(NamedRef(Some("Shortsword"))), None, Some(2));
    assert [m][1..] == [];
    assert EntryNames(m) == ["Shortsword", "Shortsword"];
    assert ["Shortsword", "Shortsword"][1..] == ["Shortsword"];
    assert ["Shortsword"][1..] == [];
    assert "Shortsword" !in Packs;
    assert MandatoryNames([m]) == ["Shortsword", "Shortsword"];
    assert Unpack(Packs, ["Shortsword"]) == [ItemRequest("Shortsword", 1)];
  }

  /** An Explorer's Pack plus the chosen "Longsword" gives nine lines; when every name is in
      the catalog the character gets nine inventory rows. */
  lemma PackAndChoiceExample(characterId: string, catalog: seq<CatalogItem>)
    ensures var equipment := Some(StartingEquipment(Some([MandatoryEntry(Some(NamedRef(Some("Explorer's Pack"))), None, None)])));
            var lines := Unpack(Packs, ItemsToAdd(equipment, Some(["Longsword"])));
            |lines| == 9 && lines[8] == ItemRequest("Longsword", 1)
            && ((forall k :: 0 <= k < |lines| ==> MatchItem(catalog, lines[k].name).Some?) ==>
                  |InventoryRows(characterId, catalog, lines)| == 9)
  {
    var m := MandatoryEntry(Some(NamedRef(Some("Explorer's Pack"))), None, None);
    var equipment := Some(StartingEquipment(Some([m])));
    assert [m][1..] == [];
    assert EntryNames(m) == ["Explorer's Pack"];
    assert MandatoryNames([m]) == ["Explorer's Pack"];
    var names := ItemsToAdd(equipment, Some(["Longsword"]));
    assert names == ["Explorer's Pack"] + ["Longsword"];
    UnpackAppend(Packs, ["Explorer's Pack"], ["Longsword"]);
    assert ["Explorer's Pack"][1..] == [];
    assert ["Longsword"][1..] == [];
    assert "Longsword" !in Packs;
    AllRowsIffAllResolve(characterId, catalog, Unpack(Packs, names));
  }

  // ---------------------------------------------------------------------------
  // The action
  // ---------------------------------------------------------------------------

  /** The class's `starting_equipment`, or nothing when the class row is missing or the
      column is null (`classData?.starting_equipment`). */
  function ClassEquipment(classes: map<string, Option<StartingEquipment>>, classId: string): Option<StartingEquipment>
  {
    if classId in classes then classes[classId] else None
  }

  /** The lines step 4 works through for a character created from `form`. */
  function StartingLines(form: CharacterForm, classes: map<string, Option<StartingEquipment>>): seq<ItemRequest>
  {
    Unpack(Packs, ItemsToAdd(ClassEquipment(classes, form.classId), form.selectedEquipment))
  }

  /** The inventory rows the action writes for a character `id` created from `form`, where
      `failed` holds the positions of the lines whose insert fails. */
  function StartingInventory(id: string, form: CharacterForm, classes: map<string, Option<StartingEquipment>>,
                             catalog: seq<CatalogItem>, failed: set<nat>): seq<InventoryRow>
  {
    if ResolvesInventory(form) then StoredRows(id, catalog, StartingLines(form, classes), failed)
    else []
  }

  /** A form whose equipment method is not "class" (the gold start, or none) gets no inventory. */
  lemma NoInventoryWithoutClassMethod(id: string, form: CharacterForm, classes: map<string, Option<StartingEquipment>>,
                                      catalog: seq<CatalogItem>, failed: set<nat>)
    requires form.equipmentMethod != Some("class")
    ensures StartingInventory(id, form, classes, catalog, failed) == []
  {
  }

  /** One turn of the insert loop: the rows written so far grow by the line's row exactly
      when the line resolves and its insert goes through. */
  lemma InsertStep(id: string, catalog: seq<CatalogItem>, lines: seq<ItemRequest>, failed: set<nat>, k: nat,
                   before: seq<InventoryRow>, after: seq<InventoryRow>)
    requires k < |lines|
    requires before == StoredRows(id, catalog, lines[..k], failed)
    requires after == if MatchItem(catalog, lines[k].name).Some? && k !in failed
                      then before + [InventoryLine(id, MatchItem(catalog, lines[k].name).value, lines[k])]
                      else before
    ensures after == StoredRows(id, catalog, lines[..k + 1], failed)
  {
    var kept := Kept(lines[..k], failed);
    var step := if k in failed then [] else [lines[k]];
    NextKept(lines, failed, k);
    InventoryRowsAppend(id, catalog, kept, step);
    if k !in failed {
      assert [lines[k]][1..] == [];
    }
  }

  /** The tables the action reads and writes. `classes` and `items` are only read. */
  class Store {
    var profiles: set<string>
    var characters: seq<CharacterRow>
    var inventory: seq<InventoryRow>
    const classes: map<string, Option<StartingEquipment>>
    const items: seq<CatalogItem>

    constructor (classes: map<string, Option<StartingEquipment>>, items: seq<CatalogItem>)
      ensures this.classes == classes && this.items == items
      ensures profiles == {} && characters == [] && inventory == []
    {
      this.classes := classes;
      this.items := items;
      profiles := {};
      characters := [];
      inventory := [];
    }

    /** The equipment branch of the action for the new character `id`: collect, unpack,
        then match and insert the lines one by one; `failed` holds the positions of the
        lines whose insert returns an error. */
    method AddStartingEquipment(id: string, form: CharacterForm, failed: set<nat>)
      modifies this
      ensures inventory == old(inventory) + StoredRows(id, items, StartingLines(form, classes), failed)
      ensures profiles == old(profiles) && characters == old(characters)
    {
      var equipmentData := ClassEquipment(classes, form.classId);
      var itemsToAdd := CollectItemsToAdd(equipmentData, form.selectedEquipment);
      var finalItemsToInsert := UnpackItems(itemsToAdd);
      InsertLines(id, finalItemsToInsert, failed);
    }

    /** Step 4 of the action: each line is matched against the catalog and, when it
        resolves, inserted as an unequipped inventory row. The error of an insert is not
        looked at: the insert at a position in `failed` writes nothing and the loop goes on. */
    method InsertLines(id: string, lines: seq<ItemRequest>, failed: set<nat>)
      modifies this
      ensures inventory == old(inventory) + StoredRows(id, items, lines, failed)
      ensures profiles == old(profiles) && characters == old(characters)
    {
      ghost var base := inventory;
      ghost var added: seq<InventoryRow> := [];
      var catalog := items;
      var k := 0;
      while k < |lines|
        invariant 0 <= k <= |lines|
        invariant added == StoredRows(id, catalog, lines[..k], failed)
        invariant inventory == base + added
        invariant profiles == old(profiles) && characters == old(characters)
      {
        var itemObj := lines[k];
        var found := MatchItem(catalog, itemObj.name);
        ghost var before := added;
        // a name that resolves nowhere is only logged as missing from the compendium
        if found.Some? && k !in failed {
          var row := InventoryLine(id, found.value, itemObj);
          inventory := inventory + [row];
          added := added + [row];
        }
        InsertStep(id, catalog, lines, failed, k, before, added);
        k := k + 1;
      }
      assert lines[..k] == lines;
    }

    /** `createCharacter`. `user` is the session's user; `insert` is what the database
        answers to the character insert. */
    method CreateCharacter(form: CharacterForm, user: Option<User>, profileInsertFails: bool,
                           insert: CharacterInsert, failedInserts: set<nat>)
      returns (outcome: CreateOutcome)
      modifies this
      ensures outcome == ActionOutcome(user, insert)
      ensures user.None? ==> outcome == Thrown(NoSessionMessage)
                             && profiles == old(profiles) && characters == old(characters)
                             && inventory == old(inventory)
      ensures user.Some? ==> profiles == old(profiles) + (if profileInsertFails then {} else {user.value.id})
      ensures user.Some? && insert.InsertFailed? ==>
                outcome == Thrown(CreateFailedPrefix + insert.message)
                && characters == old(characters) && inventory == old(inventory)
      ensures user.Some? && insert.InsertNoRow? ==>
                outcome == Thrown(CreateFailedPrefix + "undefined")
                && characters == old(characters) && inventory == old(inventory)
      ensures user.Some? && insert.InsertReturned? ==>
                outcome == Created(insert.id)
                && characters == old(characters) + [NewCharacter(insert.id, user.value.id, form)]
                && inventory == old(inventory) + StartingInventory(insert.id, form, classes, items, failedInserts)
      ensures !ResolvesInventory(form) ==> inventory == old(inventory)
    {
      if user.None? {
        return Thrown(NoSessionMessage);
      }
      var profileId := user.value.id;
      // the result of the profile insert is not looked at
      if profileId !in profiles && !profileInsertFails {
        profiles := profiles + {profileId};
      }
      match insert {
        case InsertFailed(message) =>
          return Thrown(CreateFailedPrefix + message);
        case InsertNoRow =>
          return Thrown(CreateFailedPrefix + "undefined");
        case InsertReturned(id) =>
          characters := characters + [NewCharacter(id, profileId, form)];
          if form.equipmentMethod == Some("class") && form.classId != "" {
            AddStartingEquipment(id, form, failedInserts);
          }
          return Created(id);
      }
    }
  }
}
