/** The matching form: an ESG profile edited field by field (risk appetite,
    priority SDG goals as checkboxes, preferred region, minimum credits on a
    slider) and handed unchanged to the search callback. */
module MatchingEngine {
  import opened Wrappers
  import opened Domain

  /** The SDG goals offered as checkboxes, with their labels. */
  const SdgOptions: seq<(int, string)> := [
    (5, "SDG 5: Gender Equality"),
    (7, "SDG 7: Affordable and Clean Energy"),
    (8, "SDG 8: Decent Work & Economic Growth"),
    (13, "SDG 13: Climate Action"),
    (15, "SDG 15: Life on Land")]

  predicate IsSdgOption(id: int)
  {
    exists i :: 0 <= i < |SdgOptions| && SdgOptions[i].0 == id
  }

  /** The regions of the region select. */
  const RegionOptions: seq<string> := ["Any", "Asia", "Latin America", "North America", "Africa", "Europe"]

  const SliderMin := 1000
  const SliderMax := 100000
  const SliderStep := 1000

  /** A value the minimum-credits slider can take. */
  predicate OnSlider(v: int)
  {
    SliderMin <= v <= SliderMax && (v - SliderMin) % SliderStep == 0
  }

  /** The slider's stops, lowest first. */
  function SliderStops(): (s: seq<int>)
    ensures |s| == 100
  {
    seq(100, i requires 0 <= i < 100 => SliderMin + SliderStep * i)
  }

  /** The slider's values are exactly its 100 stops. */
  lemma SliderStopsExact(v: int)
    ensures OnSlider(v) <==> v in SliderStops()
  {
    var s := SliderStops();
    if OnSlider(v) {
      var k := (v - SliderMin) / SliderStep;
      assert s[k] == v;
    }
  }

  const InitialProfile := EsgProfile(Balanced, [], "Any", 5000)

  predicate NoDuplicates(s: seq<int>)
  {
    forall i, j :: 0 <= i < j < |s| ==> s[i] != s[j]
  }

  /** `ids.filter(x => x !== id)`. */
  function Without(ids: seq<int>, id: int): (r: seq<int>)
    ensures id !in r
    ensures forall x :: x in r <==> x in ids && x != id
    ensures |r| <= |ids|
  {
    if ids == [] then []
    else if ids[0] == id then Without(ids[1..], id)
    else [ids[0]] + Without(ids[1..], id)
  }

  /** Filtering distributes over concatenation: the kept ids stay in their
      original order. */
  lemma {:induction false} WithoutAppend(a: seq<int>, b: seq<int>, id: int)
    ensures Without(a + b, id) == Without(a, id) + Without(b, id)
  {
    if a != [] {
      assert (a + b)[1..] == a[1..] + b;
      WithoutAppend(a[1..], b, id);
    } else {
      assert a + b == b;
    }
  }

  /** Filtering out an id that is not there changes nothing. */
  lemma {:induction false} WithoutAbsent(ids: seq<int>, id: int)
    requires id !in ids
    ensures Without(ids, id) == ids
  {
    if ids != [] {
      WithoutAbsent(ids[1..], id);
      assert [ids[0]] + ids[1..] == ids;
    }
  }

  /** Filtering keeps a list free of duplicates. */
  lemma {:induction false} WithoutKeepsNoDuplicates(ids: seq<int>, id: int)
    requires NoDuplicates(ids)
    ensures NoDuplicates(Without(ids, id))
  {
    if ids != [] {
      var rest := ids[1..];
      assert NoDuplicates(rest) by {
        forall i, j | 0 <= i < j < |rest| ensures rest[i] != rest[j] {
          assert rest[i] == ids[i + 1] && rest[j] == ids[j + 1];
        }
      }
      WithoutKeepsNoDuplicates(rest, id);
      if ids[0] != id {
        assert ids[0] !in rest by {
          forall j | 0 <= j < |rest| ensures rest[j] != ids[0] {
            assert rest[j] == ids[j + 1];
          }
        }
        var w := Without(rest, id);
        assert Without(ids, id) == [ids[0]] + w;
        assert ids[0] !in w;
      }
    }
  }

  /** The new SDG list after a checkbox reports `checked`: appended at the
      end, or every occurrence filtered out. */
  function ToggleSdg(ids: seq<int>, id: int, checked: bool): (r: seq<int>)
  {
    if checked then ids + [id] else Without(ids, id)
  }

  /** Checking an absent id and unchecking it again restores the list exactly. */
  lemma CheckUncheckRestores(ids: seq<int>, id: int)
    requires id !in ids
    ensures ToggleSdg(ToggleSdg(ids, id, true), id, false) == ids
  {
    WithoutAppend(ids, [id], id);
    WithoutAbsent(ids, id);
  }

  /** Unchecking a present id and checking it again gives back the same ids,
      the toggled one moved to the end. */
  lemma UncheckCheckSameSet(ids: seq<int>, id: int)
    requires id in ids
    ensures var r := ToggleSdg(ToggleSdg(ids, id, false), id, true);
            r == Without(ids, id) + [id] && (forall x :: x in r <==> x in ids)
  {
  }

  /** A checkbox shows its id as checked iff the id is in the list, so a click
      reports `checked` exactly when the id is absent; clicks therefore keep
      the list free of duplicates and within the offered goals. */
  function ClickSdg(ids: seq<int>, id: int): (r: seq<int>)
    ensures r == ToggleSdg(ids, id, id !in ids)
    ensures id in r <==> id !in ids
    ensures NoDuplicates(ids) ==> NoDuplicates(r)
    ensures (forall x :: x in ids ==> IsSdgOption(x)) && IsSdgOption(id) ==> forall x :: x in r ==> IsSdgOption(x)
  {
    if id in ids then
      assert NoDuplicates(ids) ==> NoDuplicates(Without(ids, id)) by {
        if NoDuplicates(ids) { WithoutKeepsNoDuplicates(ids, id); }
      }
      Without(ids, id)
    else
      assert NoDuplicates(ids) ==> NoDuplicates(ids + [id]) by {
        if NoDuplicates(ids) {
          forall i, j | 0 <= i < j < |ids| + 1 ensures (ids + [id])[i] != (ids + [id])[j] {
            if j == |ids| { assert (ids + [id])[i] == ids[i]; }
          }
        }
      }
      ids + [id]
  }

  /** Two clicks on the same box restore a list the box's id was absent from. */
  lemma DoubleClickRestores(ids: seq<int>, id: int)
    requires id !in ids
    ensures ClickSdg(ClickSdg(ids, id), id) == ids
  {
    CheckUncheckRestores(ids, id);
  }

  /** The form component, holding the profile being edited. */
  class MatchingForm {
    var profile: EsgProfile

    /** The form's invariant: the slider value is one of its stops, the SDG
        ids are offered goals without repeats, the region is offered. */
    predicate Valid()
      reads this
    {
      && OnSlider(profile.minimumCredits)
      && NoDuplicates(profile.prioritySdgIds)
      && (forall x :: x in profile.prioritySdgIds ==> IsSdgOption(x))
      && profile.preferredRegion in RegionOptions
    }

    /** The initial profile: Balanced, no goals, any region, 5000 credits. */
    constructor ()
      ensures profile == InitialProfile
      ensures Valid()
    {
      profile := InitialProfile;
    }

    /** `handleSDGChange`: only the SDG list changes. */
    method HandleSdgChange(id: int, checked: bool)
      modifies this
      ensures profile == old(profile).(prioritySdgIds := ToggleSdg(old(profile).prioritySdgIds, id, checked))
    {
      profile := profile.(prioritySdgIds := ToggleSdg(profile.prioritySdgIds, id, checked));
    }

    /** A click on the checkbox of an offered goal. */
    method ClickSdgCheckbox(id: int)
      requires Valid() && IsSdgOption(id)
      modifies this
      ensures Valid()
      ensures profile == old(profile).(prioritySdgIds := ClickSdg(old(profile).prioritySdgIds, id))
    {
      ghost var clicked := ClickSdg(profile.prioritySdgIds, id);
      HandleSdgChange(id, id !in profile.prioritySdgIds);
      assert profile.prioritySdgIds == clicked;
    }

    method SetRiskAppetite(value: RiskAppetite)
      requires Valid()
      modifies this
      ensures Valid()
      ensures profile == old(profile).(riskAppetite := value)
    {
      profile := profile.(riskAppetite := value);
    }

    /** The region select offers only the listed regions. */
    method SetPreferredRegion(value: string)
      requires Valid() && value in RegionOptions
      modifies this
      ensures Valid()
      ensures profile == old(profile).(preferredRegion := value)
    {
      profile := profile.(preferredRegion := value);
    }

    /** The slider reports only its own stops. */
    method SetMinimumCredits(value: int)
      requires Valid() && OnSlider(value)
      modifies this
      ensures Valid()
      ensures profile == old(profile).(minimumCredits := value)
    {
      profile := profile.(minimumCredits := value);
    }

    /** The search button: disabled while a search is loading; otherwise the
        current profile goes to the callback as it is. */
    method HandleSearch(loading: bool) returns (sent: Option<EsgProfile>)
      ensures sent.None? <==> loading
      ensures sent.Some? ==> sent.value == profile
    {
      sent := if loading then None else Some(profile);
    }
  }
}
