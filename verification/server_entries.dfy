/**
 * The entry routes of the API server (server.ts:489-970): the validation of new glucose, food
 * and mood entries, the ownership check that guards every delete and the food patch, and the
 * field-by-field patch itself. The tables are maps from entry id to entry; the class
 * `EntryStore` performs the handlers' reads and writes.
 */
module ServerEntries {
  import opened Wrappers
  import Text

  /** A JSON value from a request body; `Undefined` is a missing field, `Composite` an array or object. */
  datatype Json = Undefined | Null | Bool(b: bool) | Num(n: real) | Str(s: string) | Composite

  /** JavaScript truthiness of a body value. */
  predicate Truthy(j: Json) {
    match j
    case Undefined => false
    case Null => false
    case Bool(b) => b
    case Num(n) => n != 0.0
    case Str(s) => s != ""
    case Composite => true
  }

  /** A string body field is truthy: present and non-empty. */
  predicate Given(s: Option<string>) {
    s.Some? && s.value != ""
  }

  datatype GlucoseEntry = GlucoseEntry(id: int, glucose: int, userId: int)
  datatype FoodEntry = FoodEntry(id: int, food: string, carb: real, weight: Option<string>, weightUnit: Option<string>,
                                 favorite: bool, category: Option<string>, userId: int)
  datatype MoodEntry = MoodEntry(id: int, mood: string, hoursWorkedOut: real, notes: Option<string>, userId: int)

  // ----- glucose -----

  /**
   * The glucose check of POST /glucose-entries: truthy, a number, not at most 0 and not above
   * 1000; together, a number in (0, 1000].
   */
  function GlucoseAccepted(glucose: Option<real>): (ok: bool)
    ensures ok <==> glucose.Some? && 0.0 < glucose.value <= 1000.0
  {
    glucose.Some? && glucose.value != 0.0 && !(glucose.value <= 0.0) && !(glucose.value > 1000.0)
  }

  /** `parseInt(glucose.toString())` for a value in (0, 1000]: the integer part. */
  function StoredGlucose(v: real): (g: int)
    requires 0.0 < v <= 1000.0
    ensures 0 <= g <= 1000 && g as real <= v < g as real + 1.0
  {
    v.Floor
  }

  /** A value below 1 passes the check, although the error text promises 1 to 1000, and is stored as 0. */
  lemma FractionalGlucoseStoredAsZero(v: real)
    requires 0.0 < v < 1.0
    ensures GlucoseAccepted(Some(v)) && StoredGlucose(v) == 0
  {
  }

  // ----- food -----

  const ValidUnits: seq<string> := ["g", "kg", "oz", "lb", "mg", "serving", "piece", "cup", "tbsp", "tsp", "fl oz", "ml", "L"]
  const ValidCategories: seq<string> := ["Fruits", "Grains", "Dairy", "Vegetables", "Protein", "Sugars", "Other", "None"]

  /** The body of POST /food-entries. `food` and `carb` are checked for their JSON type, the others are taken at their declared type. */
  datatype FoodInput = FoodInput(food: Json, carb: Json, weight: Option<string>, weightUnit: Option<string>,
                                 favorite: Option<bool>, category: Option<string>)

  /** The fields of a food entry about to be created. */
  datatype FoodData = FoodData(food: string, carb: real, weight: Option<string>, weightUnit: Option<string>,
                               favorite: bool, category: Option<string>)

  /** `s || null`. */
  function OrNull(s: Option<string>): Option<string> {
    if Given(s) then s else None
  }

  /** The first check: `food` and `carb` are both truthy. */
  predicate FoodPresent(input: FoodInput) {
    Truthy(input.food) && Truthy(input.carb)
  }

  /** The name check: a string, not blank once trimmed, at most 200 UTF-16 code units long. */
  predicate FoodNameValid(food: Json) {
    food.Str? && Text.Trim(food.s) != [] && Text.Utf16Length(food.s) <= 200
  }

  /** The weight check, made only for a truthy weight: parseFloat gives a number in [0, 10000]. */
  predicate WeightValid(weight: Option<string>, parseFloat: string -> Option<real>) {
    Given(weight) ==> parseFloat(weight.value).Some? && 0.0 <= parseFloat(weight.value).value <= 10000.0
  }

  /** The unit check, made only for a truthy unit. */
  predicate UnitValid(weightUnit: Option<string>) {
    Given(weightUnit) ==> weightUnit.value in ValidUnits
  }

  /** The category check, made only for a truthy category. */
  predicate CategoryValid(category: Option<string>) {
    Given(category) ==> category.value in ValidCategories
  }

  /**
   * The validation of POST /food-entries, in the handler's order; the first failing check is
   * the 400 answer. `parseFloat` is the runtime's parseFloat, absent for NaN. On success the
   * entry keeps food and carb, favorite defaults to false, and falsy weight, unit and category
   * become null.
   */
  function FoodCreateGate(input: FoodInput, parseFloat: string -> Option<real>): (r: Result<FoodData, string>)
    ensures !FoodPresent(input) ==> r == Err("Food and carb values required")
    ensures FoodPresent(input) && !FoodNameValid(input.food) ==> r == Err("Invalid food name")
    ensures FoodPresent(input) && FoodNameValid(input.food) && !input.carb.Num? ==> r == Err("Invalid carb value")
    ensures FoodPresent(input) && FoodNameValid(input.food) && input.carb.Num? && !WeightValid(input.weight, parseFloat)
      ==> r == Err("Invalid weight value")
    ensures (FoodPresent(input) && FoodNameValid(input.food) && input.carb.Num? && WeightValid(input.weight, parseFloat)
             && !UnitValid(input.weightUnit))
      ==> r == Err("Invalid weight unit")
    ensures (FoodPresent(input) && FoodNameValid(input.food) && input.carb.Num? && WeightValid(input.weight, parseFloat)
             && UnitValid(input.weightUnit) && !CategoryValid(input.category))
      ==> r == Err("Invalid category")
    ensures r.Ok? <==>
      && FoodPresent(input) && FoodNameValid(input.food) && input.carb.Num? && WeightValid(input.weight, parseFloat)
      && UnitValid(input.weightUnit) && CategoryValid(input.category)
    ensures r.Ok? ==> input.carb.n != 0.0 && r.value == FoodData(input.food.s, input.carb.n, OrNull(input.weight),
                                          OrNull(input.weightUnit), input.favorite == Some(true), OrNull(input.category))
  {
    if !Truthy(input.food) || !Truthy(input.carb) then Err("Food and carb values required")
    else if !input.food.Str? || Text.Trim(input.food.s) == [] || Text.Utf16Length(input.food.s) > 200 then Err("Invalid food name")
    else if !input.carb.Num? then Err("Invalid carb value")
    else if Given(input.weight) && (parseFloat(input.weight.value).None? || parseFloat(input.weight.value).value < 0.0
                                    || parseFloat(input.weight.value).value > 10000.0) then Err("Invalid weight value")
    else if Given(input.weightUnit) && input.weightUnit.value !in ValidUnits then Err("Invalid weight unit")
    else if Given(input.category) && input.category.value !in ValidCategories then Err("Invalid category")
    else Ok(FoodData(input.food.s, input.carb.n, OrNull(input.weight), OrNull(input.weightUnit),
                     input.favorite == Some(true), OrNull(input.category)))
  }

  /**
   * The length limit counts UTF-16 code units: a name of 101 characters above U+FFFF (emoji,
   * say) is 202 units long and is rejected.
   */
  lemma AstralFoodNameRejected(input: FoodInput, parseFloat: string -> Option<real>)
    requires input.food.Str? && |input.food.s| == 101
    requires forall i :: 0 <= i < |input.food.s| ==> input.food.s[i] >= '\U{10000}'
    requires Truthy(input.carb)
    ensures FoodCreateGate(input, parseFloat) == Err("Invalid food name")
  {
    AllAstralDoubles(input.food.s);
  }

  /** A string of characters above U+FFFF is twice as long in UTF-16 code units. */
  lemma {:induction false} AllAstralDoubles(s: string)
    requires forall i :: 0 <= i < |s| ==> s[i] >= '\U{10000}'
    ensures Text.Utf16Length(s) == 2 * |s|
  {
    if s != [] {
      AllAstralDoubles(s[1..]);
    }
  }

  /** Zero carbs count as missing: the falsiness test comes before the number test. */
  lemma ZeroCarbRejected(input: FoodInput, parseFloat: string -> Option<real>)
    requires input.carb == Num(0.0)
    ensures FoodCreateGate(input, parseFloat) == Err("Food and carb values required")
  {
  }

  /** A food name of white space only is rejected, whatever its length. */
  lemma BlankFoodNameRejected(input: FoodInput, parseFloat: string -> Option<real>)
    requires input.food.Str? && input.food.s != [] && forall i :: 0 <= i < |input.food.s| ==> Text.IsSpace(input.food.s[i])
    requires Truthy(input.carb)
    ensures FoodCreateGate(input, parseFloat) == Err("Invalid food name")
  {
  }

  /**
   * The body of PATCH /food-entries/:id: `None` is a field left undefined. `category` may be
   * set to null (`Some(None)`).
   */
  datatype FoodPatch = FoodPatch(food: Option<string>, carb: Option<real>, weight: Option<string>,
                                 weightUnit: Option<string>, favorite: Option<bool>, category: Option<Option<string>>)

  function Keep<T>(field: Option<T>, current: T): T {
    if field.Some? then field.value else current
  }

  /**
   * The update object of the patch handler applied to an entry: only defined fields are written,
   * an empty weight or unit becomes null, nothing is validated.
   */
  function ApplyPatch(e: FoodEntry, p: FoodPatch): (r: FoodEntry)
    ensures r.id == e.id && r.userId == e.userId
    ensures p == FoodPatch(None, None, None, None, None, None) ==> r == e
  {
    FoodEntry(e.id, Keep(p.food, e.food), Keep(p.carb, e.carb),
              if p.weight.Some? then OrNull(p.weight) else e.weight,
              if p.weightUnit.Some? then OrNull(p.weightUnit) else e.weightUnit,
              Keep(p.favorite, e.favorite), Keep(p.category, e.category), e.userId)
  }

  /**
   * Field by field: an undefined field keeps the stored value and a defined one is written, an
   * empty weight or unit being written as null; applying a patch twice is applying it once.
   */
  lemma PatchProperties(e: FoodEntry, p: FoodPatch)
    ensures p.food.None? ==> ApplyPatch(e, p).food == e.food
    ensures p.food.Some? ==> ApplyPatch(e, p).food == p.food.value
    ensures p.carb.None? ==> ApplyPatch(e, p).carb == e.carb
    ensures p.carb.Some? ==> ApplyPatch(e, p).carb == p.carb.value
    ensures p.weight.None? ==> ApplyPatch(e, p).weight == e.weight
    ensures p.weight == Some("") ==> ApplyPatch(e, p).weight.None?
    ensures p.weight.Some? && p.weight.value != "" ==> ApplyPatch(e, p).weight == p.weight
    ensures p.weightUnit.None? ==> ApplyPatch(e, p).weightUnit == e.weightUnit
    ensures p.weightUnit == Some("") ==> ApplyPatch(e, p).weightUnit.None?
    ensures p.weightUnit.Some? && p.weightUnit.value != "" ==> ApplyPatch(e, p).weightUnit == p.weightUnit
    ensures p.favorite.None? ==> ApplyPatch(e, p).favorite == e.favorite
    ensures p.favorite.Some? ==> ApplyPatch(e, p).favorite == p.favorite.value
    ensures p.category.None? ==> ApplyPatch(e, p).category == e.category
    ensures p.category.Some? ==> ApplyPatch(e, p).category == p.category.value
    ensures ApplyPatch(ApplyPatch(e, p), p) == ApplyPatch(e, p)
  {
  }

  // ----- mood -----

  const Moods: seq<string> := [
    "happy", "sad", "excited", "mad", "angry", "tired", "stressed", "neutral", "anxious", "calm",
    "frustrated", "content", "energetic", "overwhelmed", "peaceful", "motivated", "grateful", "hopeful",
    "lonely", "confident", "bored", "scared", "jealous", "embarrassed", "surprised", "proud", "shy",
    "relieved", "disappointed", "guilty", "curious", "silly", "loved", "sick", "hungry", "thirsty",
    "busy", "focused", "creative", "inspired", "nostalgic", "relaxed", "worried", "optimistic",
    "pessimistic", "apathetic", "ashamed", "resentful", "hurt", "secure", "unsafe", "other"]

  /**
   * The body of POST /mood-entries: `mood` is absent when it is not a string, `hoursWorkedOut`
   * when it is not a float, `notes` when it is undefined.
   */
  datatype MoodInput = MoodInput(mood: Option<string>, hoursWorkedOut: Option<real>, notes: Option<string>)

  datatype MoodData = MoodData(mood: string, hoursWorkedOut: real, notes: Option<string>)

  /**
   * The validator chain of POST /mood-entries: the trimmed mood is one of the list, the hours lie
   * in [0, 24], and optional notes are at most 500 characters once trimmed. The sanitizers
   * rewrite the body, so the entry gets the trimmed mood and `notes || null` of the trimmed notes.
   */
  function MoodGate(input: MoodInput): (r: Option<MoodData>)
    ensures r.Some? <==>
      && input.mood.Some? && Text.Trim(input.mood.value) in Moods
      && input.hoursWorkedOut.Some? && 0.0 <= input.hoursWorkedOut.value <= 24.0
      && (input.notes.Some? ==> |Text.Trim(input.notes.value)| <= 500)
    ensures r.Some? ==> r.value.mood == Text.Trim(input.mood.value) && r.value.mood in Moods && r.value.hoursWorkedOut == input.hoursWorkedOut.value
    ensures r.Some? ==> (r.value.notes.Some? <==> input.notes.Some? && Text.Trim(input.notes.value) != [])
    ensures r.Some? && r.value.notes.Some? ==> r.value.notes.value == Text.Trim(input.notes.value)
  {
    if && input.mood.Some? && Text.Trim(input.mood.value) in Moods
       && input.hoursWorkedOut.Some? && 0.0 <= input.hoursWorkedOut.value <= 24.0
       && (input.notes.Some? ==> |Text.Trim(input.notes.value)| <= 500)
    then
      var notes := if input.notes.Some? then Text.Trim(input.notes.value) else "";
      Some(MoodData(Text.Trim(input.mood.value), input.hoursWorkedOut.value, if notes != "" then Some(notes) else None))
    else None
  }

  // ----- ownership -----

  datatype Access = Permitted | NotFound | Forbidden

  /** The checks before every delete and the food patch: a missing entry is 404, another user's 403. */
  function CheckOwnership(owner: Option<int>, caller: int): (a: Access)
    ensures a == NotFound <==> owner.None?
    ensures a == Forbidden <==> owner.Some? && owner.value != caller
    ensures a == Permitted <==> owner == Some(caller)
  {
    if owner.None? then NotFound else if owner.value != caller then Forbidden else Permitted
  }

  /** The status a guarded route answers with, given the status of its success path. */
  function AccessStatus(a: Access, success: int): int {
    match a
    case Permitted => success
    case NotFound => 404
    case Forbidden => 403
  }

  /** The owner of entry `id` in a table, if the entry exists. */
  function Owner<E>(table: map<int, E>, id: int, userOf: E -> int): Option<int> {
    if id in table then Some(userOf(table[id])) else None
  }

  function GlucoseOwner(e: GlucoseEntry): int { e.userId }
  function FoodOwner(e: FoodEntry): int { e.userId }
  function MoodOwner(e: MoodEntry): int { e.userId }

  /** The glucose, food and mood tables. */
  class EntryStore {
    var glucose: map<int, GlucoseEntry>
    var food: map<int, FoodEntry>
    var mood: map<int, MoodEntry>
    var nextGlucoseId: int
    var nextFoodId: int
    var nextMoodId: int

    /** Keys are entry ids and lie below the next id each table will assign. */
    ghost predicate Valid()
      reads this
    {
      && (forall id | id in glucose :: glucose[id].id == id && id < nextGlucoseId)
      && (forall id | id in food :: food[id].id == id && id < nextFoodId)
      && (forall id | id in mood :: mood[id].id == id && id < nextMoodId)
    }

    constructor ()
      ensures Valid() && glucose == map[] && food == map[] && mood == map[]
    {
      glucose, food, mood := map[], map[], map[];
      nextGlucoseId, nextFoodId, nextMoodId := 1, 1, 1;
    }

    /** POST /glucose-entries: 400 for a rejected value, else 201 with a new entry owned by the caller. */
    method CreateGlucose(caller: int, value: Option<real>) returns (status: int, entry: Option<GlucoseEntry>)
      requires Valid()
      modifies this`glucose, this`nextGlucoseId
      ensures Valid()
      ensures status == (if GlucoseAccepted(value) then 201 else 400)
      ensures !GlucoseAccepted(value) ==> entry.None? && glucose == old(glucose) && nextGlucoseId == old(nextGlucoseId)
      ensures GlucoseAccepted(value) ==>
        && entry == Some(GlucoseEntry(old(nextGlucoseId), StoredGlucose(value.value), caller))
        && old(nextGlucoseId) !in old(glucose)
        && glucose == old(glucose)[old(nextGlucoseId) := entry.value]
    {
      if !GlucoseAccepted(value) {
        return 400, None;
      }
      var e := GlucoseEntry(nextGlucoseId, StoredGlucose(value.value), caller);
      glucose := glucose[e.id := e];
      nextGlucoseId := nextGlucoseId + 1;
      status, entry := 201, Some(e);
    }

    /** DELETE /glucose-entries/:id: 404 or 403 before any write; otherwise the entry is removed (200). */
    method DeleteGlucose(caller: int, id: int) returns (status: int)
      requires Valid()
      modifies this`glucose
      ensures Valid()
      ensures status == AccessStatus(CheckOwnership(Owner(old(glucose), id, GlucoseOwner), caller), 200)
      ensures glucose == if status == 200 then old(glucose) - {id} else old(glucose)
    {
      if id !in glucose {
        return 404;
      }
      if glucose[id].userId != caller {
        return 403;
      }
      glucose := glucose - {id};
      status := 200;
    }

    /** POST /food-entries: the gate's first error is 400, else 201 with a new entry owned by the caller. */
    method CreateFood(caller: int, input: FoodInput, parseFloat: string -> Option<real>) returns (status: int, entry: Option<FoodEntry>)
      requires Valid()
      modifies this`food, this`nextFoodId
      ensures Valid()
      ensures status == (if FoodCreateGate(input, parseFloat).Ok? then 201 else 400)
      ensures status == 400 ==> entry.None? && food == old(food) && nextFoodId == old(nextFoodId)
      ensures status == 201 ==>
        var d := FoodCreateGate(input, parseFloat).value;
        && entry == Some(FoodEntry(old(nextFoodId), d.food, d.carb, d.weight, d.weightUnit, d.favorite, d.category, caller))
        && old(nextFoodId) !in old(food)
        && food == old(food)[old(nextFoodId) := entry.value]
    {
      var gate := FoodCreateGate(input, parseFloat);
      if gate.Err? {
        return 400, None;
      }
      var d := gate.value;
      var e := FoodEntry(nextFoodId, d.food, d.carb, d.weight, d.weightUnit, d.favorite, d.category, caller);
      food := food[e.id := e];
      nextFoodId := nextFoodId + 1;
      status, entry := 201, Some(e);
    }

    /** PATCH /food-entries/:id: 404 or 403 before any write; otherwise the patch is applied (200). */
    method PatchFood(caller: int, id: int, patch: FoodPatch) returns (status: int, entry: Option<FoodEntry>)
      requires Valid()
      modifies this`food
      ensures Valid()
      ensures status == AccessStatus(CheckOwnership(Owner(old(food), id, FoodOwner), caller), 200)
      ensures status != 200 ==> entry.None? && food == old(food)
      ensures status == 200 ==> entry == Some(ApplyPatch(old(food)[id], patch)) && food == old(food)[id := entry.value]
    {
      if id !in food {
        return 404, None;
      }
      if food[id].userId != caller {
        return 403, None;
      }
      var updated := ApplyPatch(food[id], patch);
      food := food[id := updated];
      status, entry := 200, Some(updated);
    }

    /** DELETE /food-entries/:id: 404 or 403 before any write; otherwise the entry is removed (204). */
    method DeleteFood(caller: int, id: int) returns (status: int)
      requires Valid()
      modifies this`food
      ensures Valid()
      ensures status == AccessStatus(CheckOwnership(Owner(old(food), id, FoodOwner), caller), 204)
      ensures food == if status == 204 then old(food) - {id} else old(food)
    {
      if id !in food {
        return 404;
      }
      if food[id].userId != caller {
        return 403;
      }
      food := food - {id};
      status := 204;
    }

    /** POST /mood-entries: 400 when a validator fails, else 201 with a new entry owned by the caller. */
    method CreateMood(caller: int, input: MoodInput) returns (status: int, entry: Option<MoodEntry>)
      requires Valid()
      modifies this`mood, this`nextMoodId
      ensures Valid()
      ensures status == (if MoodGate(input).Some? then 201 else 400)
      ensures status == 400 ==> entry.None? && mood == old(mood) && nextMoodId == old(nextMoodId)
      ensures status == 201 ==>
        var d := MoodGate(input).value;
        && entry == Some(MoodEntry(old(nextMoodId), d.mood, d.hoursWorkedOut, d.notes, caller))
        && old(nextMoodId) !in old(mood)
        && mood == old(mood)[old(nextMoodId) := entry.value]
    {
      var gate := MoodGate(input);
      if gate.None? {
        return 400, None;
      }
      var e := MoodEntry(nextMoodId, gate.value.mood, gate.value.hoursWorkedOut, gate.value.notes, caller);
      mood := mood[e.id := e];
      nextMoodId := nextMoodId + 1;
      status, entry := 201, Some(e);
    }

    /** DELETE /mood-entries/:id: 404 or 403 before any write; otherwise the entry is removed (204). */
    method DeleteMood(caller: int, id: int) returns (status: int)
      requires Valid()
      modifies this`mood
      ensures Valid()
      ensures status == AccessStatus(CheckOwnership(Owner(old(mood), id, MoodOwner), caller), 204)
      ensures mood == if status == 204 then old(mood) - {id} else old(mood)
    {
      if id !in mood {
        return 404;
      }
      if mood[id].userId != caller {
        return 403;
      }
      mood := mood - {id};
      status := 204;
    }
  }

  /** Only the owner can remove an entry: after any delete, another user's entry is still there. */
  lemma OthersEntriesSurviveDelete<E>(table: map<int, E>, id: int, caller: int, userOf: E -> int, success: int)
    requires success != 403 && success != 404
    requires id in table && userOf(table[id]) != caller
    ensures AccessStatus(CheckOwnership(Owner(table, id, userOf), caller), success) == 403
  {
  }
}
