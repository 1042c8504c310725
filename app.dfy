/**
 * The view shell (src/App.tsx): the list of contributions, the current screen
 * tag, the three list operations it hands to the screens, and which screen a
 * tag renders.
 */
module App {
  import opened Wrappers
  import opened Records
  import Seqs

  datatype Screen = Home | DataEntry | Contributions

  /** The tag that selects each screen. */
  function Tag(s: Screen): string
  {
    match s
    case Home => "home"
    case DataEntry => "data-entry"
    case Contributions => "contributions"
  }

  /** The screens rendered for a tag: each `currentScreen === tag && <Screen/>` guard. */
  function RenderedScreens(currentScreen: string): (r: set<Screen>)
    ensures forall s :: s in r <==> Tag(s) == currentScreen
    ensures |r| <= 1
    ensures currentScreen !in {"home", "data-entry", "contributions"} ==> r == {}
  {
    (if currentScreen == "home" then {Home} else {})
    + (if currentScreen == "data-entry" then {DataEntry} else {})
    + (if currentScreen == "contributions" then {Contributions} else {})
  }

  /** `{...contribution, <four numeric fields> : Number(...), id: Date.now()}`. */
  function NewContribution(contribution: FormData, id: Id, number: Parser): (c: Contribution)
    ensures c.id == id && c.region == contribution.region && c.date == contribution.date
    ensures c.avgTemp == ToNumber(number, contribution.avgTemp)
    ensures c.avgWindSpeed == ToNumber(number, contribution.avgWindSpeed)
    ensures c.avgSoilTemp == ToNumber(number, contribution.avgSoilTemp)
    ensures c.precipitation == ToNumber(number, contribution.precipitation)
  {
    Contribution(
      id, contribution.region, contribution.date,
      ToNumber(number, contribution.avgTemp),
      ToNumber(number, contribution.avgWindSpeed),
      ToNumber(number, contribution.avgSoilTemp),
      ToNumber(number, contribution.precipitation))
  }

  /** `[...contributions, newContribution]`. */
  function AddRecord(contributions: seq<Contribution>, contribution: FormData, id: Id, number: Parser)
    : (r: seq<Contribution>)
    ensures |r| == |contributions| + 1
    ensures r[..|contributions|] == contributions
    ensures r[|contributions|].id == id
    ensures r[|contributions|].region == contribution.region
    ensures r[|contributions|].date == contribution.date
    ensures r[|contributions|].avgTemp == ToNumber(number, contribution.avgTemp)
    ensures r[|contributions|].avgWindSpeed == ToNumber(number, contribution.avgWindSpeed)
    ensures r[|contributions|].avgSoilTemp == ToNumber(number, contribution.avgSoilTemp)
    ensures r[|contributions|].precipitation == ToNumber(number, contribution.precipitation)
  {
    contributions + [NewContribution(contribution, id, number)]
  }

  /**
   * `{...item, ...updatedData, <numeric field>: updatedData.f !== undefined ? Number(updatedData.f) : item.f}`.
   */
  function Merge(item: Contribution, updatedData: Partial, number: Parser): (m: Contribution)
    ensures m.id == updatedData.id.GetOr(item.id)
    ensures m.region == updatedData.region.GetOr(item.region)
    ensures m.date == updatedData.date.GetOr(item.date)
    ensures updatedData.avgTemp.None? ==> m.avgTemp == item.avgTemp
    ensures updatedData.avgTemp.Some? ==> m.avgTemp == ToNumber(number, updatedData.avgTemp.value)
    ensures updatedData.avgWindSpeed.None? ==> m.avgWindSpeed == item.avgWindSpeed
    ensures updatedData.avgWindSpeed.Some? ==> m.avgWindSpeed == ToNumber(number, updatedData.avgWindSpeed.value)
    ensures updatedData.avgSoilTemp.None? ==> m.avgSoilTemp == item.avgSoilTemp
    ensures updatedData.avgSoilTemp.Some? ==> m.avgSoilTemp == ToNumber(number, updatedData.avgSoilTemp.value)
    ensures updatedData.precipitation.None? ==> m.precipitation == item.precipitation
    ensures updatedData.precipitation.Some? ==> m.precipitation == ToNumber(number, updatedData.precipitation.value)
  {
    Contribution(
      updatedData.id.GetOr(item.id),
      updatedData.region.GetOr(item.region),
      updatedData.date.GetOr(item.date),
      if updatedData.avgTemp.Some? then ToNumber(number, updatedData.avgTemp.value) else item.avgTemp,
      if updatedData.avgWindSpeed.Some? then ToNumber(number, updatedData.avgWindSpeed.value) else item.avgWindSpeed,
      if updatedData.avgSoilTemp.Some? then ToNumber(number, updatedData.avgSoilTemp.value) else item.avgSoilTemp,
      if updatedData.precipitation.Some? then ToNumber(number, updatedData.precipitation.value) else item.precipitation)
  }

  /** `contributions.map(item => item.id === id ? Merge(item, updatedData) : item)`. */
  function UpdateRecords(contributions: seq<Contribution>, id: Id, updatedData: Partial, number: Parser)
    : (r: seq<Contribution>)
    ensures |r| == |contributions|
    ensures forall i :: 0 <= i < |r| && contributions[i].id != id ==> r[i] == contributions[i]
    ensures forall i :: 0 <= i < |r| && contributions[i].id == id ==> r[i] == Merge(contributions[i], updatedData, number)
    ensures (forall i :: 0 <= i < |contributions| ==> contributions[i].id != id) ==> r == contributions
  {
    seq(|contributions|, i requires 0 <= i < |contributions| =>
      if contributions[i].id == id then Merge(contributions[i], updatedData, number) else contributions[i])
  }

  /** The predicate of the delete filter, `item => item.id !== id`. */
  function KeepOther(id: Id): Contribution -> bool
  {
    (c: Contribution) => c.id != id
  }

  /** `contributions.filter(item => item.id !== id)`. */
  function DeleteRecords(contributions: seq<Contribution>, id: Id): (r: seq<Contribution>)
    ensures forall i :: 0 <= i < |r| ==> r[i].id != id && r[i] in contributions
    ensures forall i :: 0 <= i < |contributions| && contributions[i].id != id ==> contributions[i] in r
    ensures Seqs.IsSubsequence(r, contributions)
    ensures forall c :: multiset(r)[c] == if c.id == id then 0 else multiset(contributions)[c]
    ensures (forall i :: 0 <= i < |contributions| ==> contributions[i].id != id) ==> r == contributions
  {
    Seqs.FilterIsSubsequence(contributions, KeepOther(id));
    DeleteFacts(contributions, id);
    Seqs.Filter(contributions, KeepOther(id))
  }

  lemma DeleteFacts(contributions: seq<Contribution>, id: Id)
    ensures forall c :: multiset(Seqs.Filter(contributions, KeepOther(id)))[c]
                        == if c.id == id then 0 else multiset(contributions)[c]
    ensures (forall i :: 0 <= i < |contributions| ==> contributions[i].id != id)
            ==> Seqs.Filter(contributions, KeepOther(id)) == contributions
  {
    forall c
      ensures multiset(Seqs.Filter(contributions, KeepOther(id)))[c]
              == if c.id == id then 0 else multiset(contributions)[c]
    {
      Seqs.FilterMultiplicity(contributions, KeepOther(id), c);
    }
    if forall i :: 0 <= i < |contributions| ==> contributions[i].id != id {
      Seqs.FilterAllKept(contributions, KeepOther(id));
    }
  }

  /** Deleting the same id twice is deleting it once. */
  lemma DeleteIdempotent(contributions: seq<Contribution>, id: Id)
    ensures DeleteRecords(DeleteRecords(contributions, id), id) == DeleteRecords(contributions, id)
  {
    Seqs.FilterIdempotent(contributions, KeepOther(id));
  }

  /** The list shrinks by exactly the number of records carrying the id. */
  lemma {:induction false} DeleteCount(contributions: seq<Contribution>, id: Id)
    ensures |DeleteRecords(contributions, id)| == |contributions| - CountId(contributions, id)
  {
    if contributions != [] {
      DeleteCount(contributions[1..], id);
    }
  }

  /** How many records carry `id`. */
  function CountId(contributions: seq<Contribution>, id: Id): nat
  {
    if contributions == [] then 0
    else (if contributions[0].id == id then 1 else 0) + CountId(contributions[1..], id)
  }

  /** An update whose patch carries no id, or the same id, leaves every record's id in place. */
  lemma UpdateKeepsIds(contributions: seq<Contribution>, id: Id, updatedData: Partial, number: Parser)
    requires updatedData.id.None? || updatedData.id == Some(id)
    ensures forall i :: 0 <= i < |contributions| ==> UpdateRecords(contributions, id, updatedData, number)[i].id == contributions[i].id
  {
  }

  /** The state cells of `App`: `currentScreen` and `contributions`. */
  class AppState {
    var currentScreen: string
    var contributions: seq<Contribution>

    /** `useState('home')`, `useState([])`. */
    constructor ()
      ensures currentScreen == "home" && contributions == []
    {
      currentScreen := "home";
      contributions := [];
    }

    method SetCurrentScreen(screen: string)
      modifies this
      ensures currentScreen == screen
      ensures contributions == old(contributions)
    {
      currentScreen := screen;
    }

    method AddContribution(contribution: FormData, now: Id, number: Parser)
      modifies this
      ensures contributions == AddRecord(old(contributions), contribution, now, number)
      ensures currentScreen == old(currentScreen)
    {
      contributions := AddRecord(contributions, contribution, now, number);
    }

    method UpdateContribution(id: Id, updatedData: Partial, number: Parser)
      modifies this
      ensures contributions == UpdateRecords(old(contributions), id, updatedData, number)
      ensures currentScreen == old(currentScreen)
    {
      contributions := UpdateRecords(contributions, id, updatedData, number);
    }

    method DeleteContribution(id: Id)
      modifies this
      ensures contributions == DeleteRecords(old(contributions), id)
      ensures currentScreen == old(currentScreen)
    {
      contributions := DeleteRecords(contributions, id);
    }
  }
}
