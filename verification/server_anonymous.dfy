/**
 * The anonymous comparison routes of the API server (server.ts:980-1111): the list of other
 * users under positional labels, and one other user's entries by position with every
 * identifying field removed.
 */
module ServerAnonymous {
  import opened Wrappers
  import Text
  import opened ServerEntries

  /** A user row with its entries, as the database returns it. */
  datatype UserRow = UserRow(id: int, glucoseEntries: seq<GlucoseEntry>, foodEntries: seq<FoodEntry>)

  /** Every user except the caller, in database order. */
  function Others(rows: seq<UserRow>, caller: int): (others: seq<UserRow>)
    ensures |others| <= |rows|
    ensures forall r :: r in others <==> r in rows && r.id != caller
    ensures forall r :: multiset(others)[r] == if r.id == caller then 0 else multiset(rows)[r]
  {
    if rows == [] then []
    else
      assert rows == [rows[0]] + rows[1..];
      if rows[0].id == caller then Others(rows[1..], caller)
      else [rows[0]] + Others(rows[1..], caller)
  }

  /** The order is the database order: the others of a concatenation are those of each part, in turn. */
  lemma {:induction false} OthersAppend(a: seq<UserRow>, b: seq<UserRow>, caller: int)
    ensures Others(a + b, caller) == Others(a, caller) + Others(b, caller)
  {
    if a == [] {
      assert a + b == b;
    } else {
      assert (a + b)[1..] == a[1..] + b;
      OthersAppend(a[1..], b, caller);
    }
  }

  const LabelPrefix: string := "Anonymous User "

  /** The label of the user at a zero-based position: the prefix and the one-based position in decimal. */
  function Label(index: nat): (s: string)
    ensures |s| > |LabelPrefix| && s[..|LabelPrefix|] == LabelPrefix
    ensures forall i :: |LabelPrefix| <= i < |s| ==> '0' <= s[i] <= '9'
    ensures Text.DecimalValue(s[|LabelPrefix|..]) == index + 1
  {
    Text.DecimalRoundTrip(index + 1);
    var s := LabelPrefix + Text.DecimalString(index + 1);
    assert s[|LabelPrefix|..] == Text.DecimalString(index + 1);
    s
  }

  /** Different positions have different labels. */
  lemma LabelsDistinct(i: nat, j: nat)
    requires i != j
    ensures Label(i) != Label(j)
  {
  }

  datatype ListItem = ListItem(index: nat, userLabel: string)

  /** GET /users/anonymous/list: 404 when nobody else exists, else the count and one labelled item per position. */
  datatype ListReply = NoOtherUsers | Listing(count: nat, users: seq<ListItem>)

  function AnonymousList(rows: seq<UserRow>, caller: int): (r: ListReply)
    ensures r.NoOtherUsers? <==> forall row :: row in rows ==> row.id == caller
    ensures r.Listing? ==> r.count == |r.users| == |Others(rows, caller)| > 0
    ensures r.Listing? ==> forall i :: 0 <= i < |r.users| ==> r.users[i] == ListItem(i, Label(i))
  {
    var others := Others(rows, caller);
    if |others| == 0 then
      assert forall row :: row in rows ==> row.id == caller;
      NoOtherUsers
    else
      assert others[0] in rows;
      Listing(|others|, seq(|others|, i requires 0 <= i < |others| => ListItem(i, Label(i))))
  }

  function ListStatus(r: ListReply): int {
    if r.NoOtherUsers? then 404 else 200
  }

  /** An anonymized glucose entry: its timestamp is not modelled and the owner is gone. */
  datatype AnonGlucose = AnonGlucose(id: int, glucose: int)
  /** An anonymized food entry: weight, unit and owner are gone. */
  datatype AnonFood = AnonFood(id: int, food: string, carb: real, favorite: bool, category: Option<string>)

  datatype Anonymized = Anonymized(anonymousId: string, index: nat, glucoseEntries: seq<AnonGlucose>,
                                   foodEntries: seq<AnonFood>, totalGlucoseEntries: nat, totalFoodEntries: nat)

  /** The data of one other user as the index route returns it. */
  function Anonymize(u: UserRow, index: nat): (d: Anonymized)
    ensures d.anonymousId == Label(index) && d.index == index
    ensures |d.glucoseEntries| == d.totalGlucoseEntries == |u.glucoseEntries|
    ensures |d.foodEntries| == d.totalFoodEntries == |u.foodEntries|
    ensures forall i :: 0 <= i < |u.glucoseEntries| ==>
      d.glucoseEntries[i].id == u.glucoseEntries[i].id && d.glucoseEntries[i].glucose == u.glucoseEntries[i].glucose
    ensures forall i :: 0 <= i < |u.foodEntries| ==>
      var e := u.foodEntries[i];
      d.foodEntries[i] == AnonFood(e.id, e.food, e.carb, e.favorite, e.category)
  {
    var g := seq(|u.glucoseEntries|, i requires 0 <= i < |u.glucoseEntries| =>
                   AnonGlucose(u.glucoseEntries[i].id, u.glucoseEntries[i].glucose));
    var f := seq(|u.foodEntries|, i requires 0 <= i < |u.foodEntries| =>
                   var e := u.foodEntries[i]; AnonFood(e.id, e.food, e.carb, e.favorite, e.category));
    Anonymized(Label(index), index, g, f, |u.glucoseEntries|, |u.foodEntries|)
  }

  /** GET /users/anonymous/:index. */
  datatype IndexReply = InvalidIndex | NoOthersAvailable | UserNotFound(message: string) | Data(data: Anonymized)

  /**
   * `index` is parseInt of the route parameter, `None` for NaN. A NaN, negative or above-10000
   * index is 400 before the database is read; then an empty list and a position past its end are
   * both 404; otherwise the user at that position, anonymized.
   */
  function AnonymousAt(rows: seq<UserRow>, caller: int, index: Option<int>): (r: IndexReply)
    ensures r.InvalidIndex? <==> index.None? || index.value < 0 || index.value > 10000
    ensures r.NoOthersAvailable? <==> !r.InvalidIndex? && |Others(rows, caller)| == 0
    ensures r.UserNotFound? <==> !r.InvalidIndex? && 0 < |Others(rows, caller)| <= index.value
    ensures r.UserNotFound? ==> r.message == Label(index.value) + " does not exist."
    ensures r.Data? ==> 0 <= index.value < |Others(rows, caller)|
                        && r.data == Anonymize(Others(rows, caller)[index.value], index.value)
  {
    if index.None? || index.value < 0 || index.value > 10000 then InvalidIndex
    else
      var others := Others(rows, caller);
      if |others| == 0 then NoOthersAvailable
      else if index.value >= |others| then UserNotFound(Label(index.value) + " does not exist.")
      else Data(Anonymize(others[index.value], index.value))
  }

  function IndexStatus(r: IndexReply): int {
    match r
    case InvalidIndex => 400
    case NoOthersAvailable => 404
    case UserNotFound(_) => 404
    case Data(_) => 200
  }

  /** The caller never sees their own data through the index route. */
  lemma CallerNeverServed(rows: seq<UserRow>, caller: int, index: Option<int>)
    requires AnonymousAt(rows, caller, index).Data?
    ensures Others(rows, caller)[index.value].id != caller
  {
    assert Others(rows, caller)[index.value] in Others(rows, caller);
  }

  /**
   * The two routes agree: every position in the list (at most 10000) is served by the index
   * route under the same label, and no position past the list is.
   */
  lemma ListAndIndexAgree(rows: seq<UserRow>, caller: int, i: nat)
    requires AnonymousList(rows, caller).Listing?
    ensures i < AnonymousList(rows, caller).count && i <= 10000 ==>
      AnonymousAt(rows, caller, Some(i)).Data? &&
      AnonymousAt(rows, caller, Some(i)).data.anonymousId == AnonymousList(rows, caller).users[i].userLabel
    ensures i >= AnonymousList(rows, caller).count ==> !AnonymousAt(rows, caller, Some(i)).Data?
  {
  }
}
