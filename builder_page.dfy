/** The five-step character wizard: race, class, ability scores, story, summary. It holds
    the step and the form, clamps every score edit into [1, 20], checks that name, race
    and class are filled in before submitting, and calls `createCharacter`. */
module BuilderPage {

  import opened Wrappers
  import opened Numbers
  import opened Abilities
  import opened BuilderActions

  const FirstStep: int := 1
  const LastStep: int := 5
  const MinScore: int := 1
  const MaxScore: int := 20
  const InitialScore: int := 10
  const MissingFieldsWarning: string := "Lütfen boş alanları doldurunuz (İsim, Irk ve Sınıf)."
  const SubmitFailedFallback: string := "Karakter oluşturulurken bir hata oluştu."
  const SubmittedMessage: string := "Karakter başarıyla oluşturuldu! Yönlendiriliyorsunuz..."

  /** The Back button is enabled everywhere but on the first step. */
  predicate CanGoBack(step: int)
  {
    step != FirstStep
  }

  /** The Next button is shown below the last step; the last step shows the submit button. */
  predicate ShowsNext(step: int)
  {
    step < LastStep
  }

  /** Moving with the buttons keeps the step in [1, 5]. */
  lemma ButtonsKeepStepInRange(step: int)
    requires FirstStep <= step <= LastStep
    ensures ShowsNext(step) ==> FirstStep <= step + 1 <= LastStep
    ensures CanGoBack(step) ==> FirstStep <= step - 1 <= LastStep
    ensures !ShowsNext(step) <==> step == LastStep
  {
  }

  /** Name, race and class must all be non-empty before submitting. */
  predicate Submittable(name: string, raceId: string, classId: string)
  {
    name != "" && raceId != "" && classId != ""
  }

  /** The object the wizard passes to `createCharacter`: its form has no image, no
      starting gold, no equipment method and no selected equipment. */
  function FormOf(name: string, raceId: string, classId: string, stats: Stats,
                  background: string, appearance: string): (f: CharacterForm)
    ensures f.name == name && f.raceId == raceId && f.classId == classId && f.stats == stats
    ensures f.equipmentMethod.None? && f.startingGold.None? && f.selectedEquipment.None?
  {
    CharacterForm(name, raceId, classId, stats, background, appearance, None, None, None, None)
  }

  /** A character created from the wizard starts with 0 gold and no inventory rows. */
  lemma WizardFormGetsNoEquipment(id: string, userId: string, name: string, raceId: string,
                                  classId: string, stats: Stats, background: string,
                                  appearance: string, classes: map<string, Option<StartingEquipment>>,
                                  catalog: seq<CatalogItem>, failed: set<nat>)
    ensures var f := FormOf(name, raceId, classId, stats, background, appearance);
            StartingInventory(id, f, classes, catalog, failed) == [] && NewCharacter(id, userId, f).currency.gp == 0
  {
    var f := FormOf(name, raceId, classId, stats, background, appearance);
    NoInventoryWithoutClassMethod(id, f, classes, catalog, failed);
  }

  /** Every field of the wizard's state, so that a handler can say what it leaves alone. */
  datatype WizardState = WizardState(step: int, loading: bool, name: string, raceId: string,
                                     classId: string, stats: Stats, background: string,
                                     appearance: string, toast: Option<string>)

  class Wizard {
    var step: int
    var loading: bool
    var name: string
    var raceId: string
    var classId: string
    var stats: Stats
    var background: string
    var appearance: string
    /** The last toast shown, if any. */
    var toast: Option<string>
    const store: Store

    ghost function Snapshot(): WizardState
      reads this
    {
      WizardState(step, loading, name, raceId, classId, stats, background, appearance, toast)
    }

    /** Every score stays in [1, 20]. */
    ghost predicate Valid()
      reads this
    {
      forall a :: MinScore <= stats.Get(a) <= MaxScore
    }

    constructor (store: Store)
      ensures this.store == store
      ensures step == FirstStep && loading
      ensures name == "" && raceId == "" && classId == "" && background == "" && appearance == ""
      ensures stats == Uniform(InitialScore) && toast.None?
      ensures Valid()
    {
      this.store := store;
      step := FirstStep;
      loading := true;
      name, raceId, classId := "", "", "";
      stats := Uniform(InitialScore);
      background, appearance := "", "";
      toast := None;
    }

    /** The end of the initial data fetch (`finally`): the page unlocks. */
    method FinishLoading()
      modifies this
      ensures Snapshot() == old(Snapshot()).(loading := false)
    {
      loading := false;
    }

    method NextStep()
      modifies this
      ensures Snapshot() == old(Snapshot()).(step := old(step) + 1)
    {
      step := step + 1;
    }

    method PrevStep()
      modifies this
      ensures Snapshot() == old(Snapshot()).(step := old(step) - 1)
    {
      step := step - 1;
    }

    method SelectRace(id: string)
      modifies this
      ensures Snapshot() == old(Snapshot()).(raceId := id)
    {
      raceId := id;
    }

    method SelectClass(id: string)
      modifies this
      ensures Snapshot() == old(Snapshot()).(classId := id)
    {
      classId := id;
    }

    method SetName(n: string)
      modifies this
      ensures Snapshot() == old(Snapshot()).(name := n)
    {
      name := n;
    }

    method SetBackground(text: string)
      modifies this
      ensures Snapshot() == old(Snapshot()).(background := text)
    {
      background := text;
    }

    method SetAppearance(text: string)
      modifies this
      ensures Snapshot() == old(Snapshot()).(appearance := text)
    {
      appearance := text;
    }

    /** `updateStat(stat, value)`: the named score becomes the value clamped into [1, 20];
        the others are kept. */
    method UpdateStat(a: Ability, value: int)
      requires Valid()
      modifies this
      ensures Snapshot() == old(Snapshot()).(stats := old(stats).With(a, Clamp(value, MinScore, MaxScore)))
      ensures forall b :: b != a ==> stats.Get(b) == old(stats).Get(b)
      ensures Valid()
    {
      stats := stats.With(a, Max(MinScore, Min(MaxScore, value)));
    }

    /** `handleSubmit`, with `user`, `profileInsertFails`, `insert` and `failedInserts`
        standing for the session and the database's answers inside `createCharacter`.
        Returns the action's outcome, or None when the form was incomplete and nothing was
        submitted. */
    method HandleSubmit(user: Option<User>, profileInsertFails: bool, insert: CharacterInsert,
                        failedInserts: set<nat>) returns (outcome: Option<CreateOutcome>)
      modifies this, store
      ensures !Submittable(old(name), old(raceId), old(classId)) ==>
                outcome.None? && toast == Some(MissingFieldsWarning) && loading == old(loading)
                && store.characters == old(store.characters) && store.profiles == old(store.profiles)
      ensures Submittable(old(name), old(raceId), old(classId)) ==>
                outcome == Some(ActionOutcome(user, insert)) && (outcome.value.Thrown? <==> !loading)
                && store.profiles == old(store.profiles) + (if user.Some? && !profileInsertFails then {user.value.id} else {})
      ensures outcome.Some? && outcome.value.Created? ==> toast == Some(SubmittedMessage)
      ensures outcome.Some? && outcome.value.Thrown? ==>
                store.characters == old(store.characters)
                && toast == Some(if outcome.value.message != "" then outcome.value.message else SubmitFailedFallback)
      ensures outcome.Some? && outcome.value.Created? ==>
                user.Some? && store.characters == old(store.characters)
                  + [NewCharacter(outcome.value.characterId, user.value.id,
                                  FormOf(old(name), old(raceId), old(classId), old(stats),
                                         old(background), old(appearance)))]
      ensures store.inventory == old(store.inventory)
      ensures Snapshot() == old(Snapshot()).(loading := loading, toast := toast)
    {
      if name == "" || raceId == "" || classId == "" {
        toast := Some(MissingFieldsWarning);
        return None;
      }
      loading := true;
      var form := FormOf(name, raceId, classId, stats, background, appearance);
      assert !ResolvesInventory(form);
      var result := store.CreateCharacter(form, user, profileInsertFails, insert, failedInserts);
      assert result.Created? ==> user.Some? && insert.InsertReturned? && result.characterId == insert.id;
      match result {
        case Created(_) =>
          toast := Some(SubmittedMessage);
        case Thrown(message) =>
          toast := Some(if message != "" then message else SubmitFailedFallback);
          loading := false;
      }
      return Some(result);
    }
  }
}
