/** The game master's console for one character: hit-point buttons that clamp the new value
    into [0, maxHp] before storing and sending it, and an item search that only queries once
    the text has at least three characters. The server calls are parameters: whether the
    hit-point update succeeded and the rows the search returned. */
module DmTools {

  import opened Text
  import opened Numbers

  const MinSearchLength: nat := 3

  /** The deltas of the four hit-point buttons: -1, +1, -5 damage and +5 healing. */
  const ButtonDeltas: seq<int> := [-1, 1, -5, 5]

  /** The hit points a request for `newVal` results in. */
  function ClampHp(newVal: int, maxHp: int): (hp: int)
    ensures 0 <= maxHp ==> 0 <= hp <= maxHp
    ensures 0 <= newVal <= maxHp ==> hp == newVal
    ensures newVal < 0 ==> hp == 0
    ensures 0 <= maxHp < newVal ==> hp == maxHp
  {
    Clamp(newVal, 0, maxHp)
  }

  /** Pressing a button keeps in-range hit points in range, damage never goes below 0 and
      healing never above the maximum. */
  lemma ButtonsKeepHpInRange(hp: int, maxHp: int, k: nat)
    requires 0 <= hp <= maxHp && k < |ButtonDeltas|
    ensures 0 <= ClampHp(hp + ButtonDeltas[k], maxHp) <= maxHp
    ensures ButtonDeltas[k] < 0 ==> ClampHp(hp + ButtonDeltas[k], maxHp) == Max(0, hp + ButtonDeltas[k])
    ensures ButtonDeltas[k] > 0 ==> ClampHp(hp + ButtonDeltas[k], maxHp) == Min(maxHp, hp + ButtonDeltas[k])
  {
  }

  /** 3 hit points take 5 damage and drop to 0; healing at the maximum stays there. */
  lemma HpExamples(maxHp: int)
    requires maxHp >= 0
    ensures ClampHp(3 - 5, 10) == 0
    ensures ClampHp(maxHp + 1, maxHp) == maxHp && ClampHp(maxHp + 5, maxHp) == maxHp
  {
  }

  /** Whether the text is long enough to search for. */
  predicate SearchesFor(q: string)
  {
    |q| >= MinSearchLength
  }

  datatype ItemHit = ItemHit(id: string, name: string)

  class DmConsole {
    const characterId: string
    const characterName: string
    const maxHp: int
    var hp: int
    var itemSearch: string
    var searchResults: seq<ItemHit>
    var loadingSearch: bool

    constructor (characterId: string, characterName: string, currentHp: int, maxHp: int)
      ensures this.characterId == characterId && this.characterName == characterName
      ensures this.maxHp == maxHp && hp == currentHp
      ensures itemSearch == "" && searchResults == [] && !loadingSearch
    {
      this.characterId := characterId;
      this.characterName := characterName;
      this.maxHp := maxHp;
      hp := currentHp;
      itemSearch := "";
      searchResults := [];
      loadingSearch := false;
    }

    /** `handleHpUpdate(newVal)`: stores the clamped value and returns the value sent to the
        server together with the toast shown, given whether the update succeeded. */
    method HandleHpUpdate(newVal: int, updateSucceeded: bool) returns (sent: int, toast: string)
      modifies this
      ensures hp == ClampHp(newVal, maxHp) && sent == hp
      ensures updateSucceeded ==> toast == characterName + " canı güncellendi: " + IntToString(sent)
      ensures !updateSucceeded ==> toast == "Hata oluştu"
      ensures itemSearch == old(itemSearch) && searchResults == old(searchResults)
      ensures loadingSearch == old(loadingSearch)
    {
      var val := Max(0, Min(maxHp, newVal));
      hp := val;
      sent := val;
      if updateSucceeded {
        toast := characterName + " canı güncellendi: " + IntToString(val);
      } else {
        toast := "Hata oluştu";
      }
    }

    /** `handleSearch(q)` run to completion, where `found` is what the search returned:
        the text is always recorded; the results are replaced only for long enough text. */
    method HandleSearch(q: string, found: seq<ItemHit>) returns (searched: bool)
      modifies this
      ensures searched <==> SearchesFor(q)
      ensures itemSearch == q && hp == old(hp)
      ensures searched ==> searchResults == found && !loadingSearch
      ensures !searched ==> searchResults == old(searchResults) && loadingSearch == old(loadingSearch)
    {
      itemSearch := q;
      if |q| < MinSearchLength {
        return false;
      }
      loadingSearch := true;
      searchResults := found;
      loadingSearch := false;
      return true;
    }
  }
}
