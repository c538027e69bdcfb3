/**
 * The week selector and session handling of the Streamlit page (app.py):
 * the current week's index in the old scraper's week list, the list cut
 * down to the weeks starting no earlier than the current one together with
 * their original indices, the current week's position in that list, the
 * reset of generated material and chat when the week changes, and the
 * stored-or-generate rule of the generate button.
 */
module StreamlitApp {
  import opened Wrappers
  import opened Dates
  import opened ScraperOld
  import opened Api
  import opened AzureApp

  /** The current week: the first one holding `today`, else the first of the list. */
  method CurrentWeekIndex(weeks: seq<OldChoice>, today: Date) returns (index: nat)
    ensures (exists k :: 0 <= k < |weeks| && ChoiceCovers(weeks[k], today)) ==>
      index < |weeks| && ChoiceCovers(weeks[index], today)
      && forall k :: 0 <= k < index ==> !ChoiceCovers(weeks[k], today)
    ensures (forall k :: 0 <= k < |weeks| ==> !ChoiceCovers(weeks[k], today)) ==> index == 0
  {
    index := 0;
    var i := 0;
    while i < |weeks|
      invariant 0 <= i <= |weeks|
      invariant forall k :: 0 <= k < i ==> !ChoiceCovers(weeks[k], today)
    {
      if ChoiceCovers(weeks[i], today) {
        index := i;
        return;
      }
      i := i + 1;
    }
  }

  /** `current` is the week the page preselects: the first holding `today`, else the first. */
  predicate IsCurrentWeek(weeks: seq<OldChoice>, today: Date, current: nat) {
    current < |weeks|
    && if exists k :: 0 <= k < |weeks| && ChoiceCovers(weeks[k], today) then
         ChoiceCovers(weeks[current], today) && forall j :: 0 <= j < current ==> !ChoiceCovers(weeks[j], today)
       else current == 0
  }

  /** The indices below `n`, in order, of the weeks starting on or after `from`. */
  function StartingFrom(weeks: seq<OldChoice>, from: Date, n: nat): seq<nat>
    requires n <= |weeks|
  {
    if n == 0 then []
    else StartingFrom(weeks, from, n - 1) + (if AtOrBefore(from, weeks[n - 1].start) then [n - 1] else [])
  }

  /** Those indices are ascending, each below `n` and starting on or after `from`, and none is missed. */
  lemma {:induction false} StartingFromIsFilter(weeks: seq<OldChoice>, from: Date, n: nat)
    requires n <= |weeks|
    ensures var ix := StartingFrom(weeks, from, n);
      (forall k :: 0 <= k < |ix| ==> ix[k] < n && AtOrBefore(from, weeks[ix[k]].start))
      && (forall k, l :: 0 <= k < l < |ix| ==> ix[k] < ix[l])
      && (forall i :: 0 <= i < n && AtOrBefore(from, weeks[i].start) ==> i in ix)
  {
    if n > 0 {
      StartingFromIsFilter(weeks, from, n - 1);
    }
  }

  /**
   * The weeks starting on or after the current week's start, in list
   * order, with their indices in the full list.
   */
  method FilterWeeks(weeks: seq<OldChoice>, current: nat) returns (filtered: seq<OldChoice>, indices: seq<nat>)
    requires current < |weeks|
    ensures |filtered| == |indices|
    ensures forall k :: 0 <= k < |indices| ==>
      indices[k] < |weeks| && filtered[k] == weeks[indices[k]]
      && AtOrBefore(weeks[current].start, weeks[indices[k]].start)
    ensures forall k, l :: 0 <= k < l < |indices| ==> indices[k] < indices[l]
    ensures forall i :: 0 <= i < |weeks| && AtOrBefore(weeks[current].start, weeks[i].start) ==> i in indices
    ensures indices == StartingFrom(weeks, weeks[current].start, |weeks|)
  {
    filtered, indices := [], [];
    var i := 0;
    while i < |weeks|
      invariant 0 <= i <= |weeks|
      invariant |filtered| == |indices|
      invariant indices == StartingFrom(weeks, weeks[current].start, i)
      invariant forall k :: 0 <= k < |indices| ==> indices[k] < |weeks| && filtered[k] == weeks[indices[k]]
    {
      StartingFromIsFilter(weeks, weeks[current].start, i);
      if AtOrBefore(weeks[current].start, weeks[i].start) {
        filtered := filtered + [weeks[i]];
        indices := indices + [i];
      }
      i := i + 1;
    }
    StartingFromIsFilter(weeks, weeks[current].start, |weeks|);
  }

  /** The position of `current` among the filtered indices, 0 when absent. */
  method CurrentFilteredIndex(indices: seq<nat>, current: nat) returns (pos: nat)
    ensures current in indices ==>
      pos < |indices| && indices[pos] == current && forall k :: 0 <= k < pos ==> indices[k] != current
    ensures current !in indices ==> pos == 0
  {
    pos := 0;
    var i := 0;
    while i < |indices|
      invariant 0 <= i <= |indices|
      invariant forall k :: 0 <= k < i ==> indices[k] != current
    {
      if indices[i] == current {
        pos := i;
        return;
      }
      i := i + 1;
    }
  }

  /**
   * The selector as the page builds it.  `pick` is the user's choice among
   * the offered positions; without one the current week is preselected.
   * The week selected always starts no earlier than the current week.
   */
  method SelectWeek(weeks: seq<OldChoice>, today: Date, pick: Option<nat>) returns (selectedIndex: nat)
    requires weeks != []
    ensures selectedIndex < |weeks|
    ensures forall k :: 0 <= k < |weeks| && ChoiceCovers(weeks[k], today) && (forall j :: 0 <= j < k ==> !ChoiceCovers(weeks[j], today)) ==>
      AtOrBefore(weeks[k].start, weeks[selectedIndex].start) && (pick.None? ==> selectedIndex == k)
    ensures (forall k :: 0 <= k < |weeks| ==> !ChoiceCovers(weeks[k], today)) ==>
      AtOrBefore(weeks[0].start, weeks[selectedIndex].start) && (pick.None? ==> selectedIndex == 0)
    ensures forall c: nat :: IsCurrentWeek(weeks, today, c) ==>
      var offered := StartingFrom(weeks, weeks[c].start, |weeks|);
      pick.Some? && pick.value < |offered| ==> selectedIndex == offered[pick.value]
  {
    var current := CurrentWeekIndex(weeks, today);
    var filtered, indices := FilterWeeks(weeks, current);
    assert current in indices;
    var position := CurrentFilteredIndex(indices, current);
    var chosen := if pick.Some? && pick.value < |filtered| then pick.value else position;
    selectedIndex := indices[chosen];
    assert IsCurrentWeek(weeks, today, current);
    forall c: nat | IsCurrentWeek(weeks, today, c) ensures c == current {
      CurrentWeekUnique(weeks, today, c, current);
    }
  }

  /** At most one week is the current one. */
  lemma CurrentWeekUnique(weeks: seq<OldChoice>, today: Date, c: nat, d: nat)
    requires IsCurrentWeek(weeks, today, c) && IsCurrentWeek(weeks, today, d)
    ensures c == d
  {
    if exists k :: 0 <= k < |weeks| && ChoiceCovers(weeks[k], today) {
      assert ChoiceCovers(weeks[c], today) && ChoiceCovers(weeks[d], today);
    }
  }

  /** The page's session: the week shown, the material generated for it and the chat about it. */
  class Session {
    var currentWeek: Option<string>
    var generatedMaterial: Option<string>
    var chatHistory: Option<seq<(string, string)>>
    /** The page's own `curriculum_materials` table. */
    var materials: seq<MaterialRow>

    constructor (stored: seq<MaterialRow>)
      ensures currentWeek.None? && generatedMaterial.None? && chatHistory.None? && materials == stored
    {
      currentWeek, generatedMaterial, chatHistory := None, None, None;
      materials := stored;
    }

    /**
     * The week check of `main`: a first week is recorded; a different week
     * drops the generated material and the chat and is recorded; the same
     * week changes nothing.
     */
    method ObserveWeek(weekRange: string)
      modifies this
      ensures currentWeek == Some(weekRange) && materials == old(materials)
      ensures old(currentWeek).None? || old(currentWeek) == Some(weekRange) ==>
        generatedMaterial == old(generatedMaterial) && chatHistory == old(chatHistory)
      ensures old(currentWeek).Some? && old(currentWeek) != Some(weekRange) ==>
        generatedMaterial.None? && chatHistory.None?
    {
      if currentWeek.None? {
        currentWeek := Some(weekRange);
      } else if currentWeek != Some(weekRange) {
        generatedMaterial := None;
        chatHistory := None;
        currentWeek := Some(weekRange);
      }
    }

    /**
     * The generate button: a non-empty stored material for the (title,
     * audience, week) triple is shown without generating; otherwise a
     * non-empty generated material is saved, then shown.  Without lesson
     * data, or when generation yields nothing, nothing changes.
     */
    method GenerateButton(
      lesson: Option<(string, string)>, audience: string, weekRange: string,
      generate: (string, string, string) -> Option<string>)
      returns (ok: bool)
      modifies this
      ensures currentWeek == old(currentWeek) && chatHistory == old(chatHistory)
      ensures lesson.None? ==> !ok && generatedMaterial == old(generatedMaterial) && materials == old(materials)
      ensures lesson.Some? ==>
        var saved := LatestMaterial(old(materials), lesson.value.0, audience, weekRange);
        var generated := generate(lesson.value.0, lesson.value.1, audience);
        if saved.Some? && saved.value != "" then
          ok && generatedMaterial == saved && materials == old(materials)
        else if generated.Some? && generated.value != "" then
          ok && generatedMaterial == generated
          && materials == old(materials) + [MaterialRow(lesson.value.0, audience, generated.value, weekRange)]
        else
          !ok && generatedMaterial == old(generatedMaterial) && materials == old(materials)
    {
      if lesson.None? {
        return false;
      }
      var (title, content) := lesson.value;
      var saved := LatestMaterial(materials, title, audience, weekRange);
      if saved.Some? && saved.value != "" {
        generatedMaterial := saved;
        return true;
      }
      var generated := generate(title, content, audience);
      if generated.Some? && generated.value != "" {
        materials := materials + [MaterialRow(title, audience, generated.value, weekRange)];
        generatedMaterial := generated;
        return true;
      }
      return false;
    }
  }
}
