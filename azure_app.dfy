/**
 * The SQLite back end of app_azure.py: the generated-materials cache and
 * the Q&A log.  Rows are kept in insertion order; `created_at` is the
 * insertion time, so "latest first" is reverse insertion order.  The
 * language model is a parameter that answers a prompt's inputs, or fails.
 */
module AzureApp {
  import opened Wrappers
  import opened Api

  /** A row of `curriculum_materials`. */
  datatype MaterialRow = MaterialRow(lessonTitle: string, audience: string, content: string, weekRange: string)

  /** A row of `curriculum_qa`. */
  datatype QaRow = QaRow(weekRange: string, audience: string, question: string, answer: string)

  /** What `generate_curriculum_material` answers. */
  datatype Material = Material(material: string, isCached: bool)

  predicate IsMaterialFor(m: MaterialRow, title: string, audience: string, week: string) {
    m.lessonTitle == title && m.audience == audience && m.weekRange == week
  }

  /**
   * `SELECT content ... WHERE lesson_title = ? AND target_audience = ? AND
   * week_range = ? ORDER BY created_at DESC LIMIT 1`: the content of the
   * latest row stored for the triple.
   */
  function LatestMaterial(rows: seq<MaterialRow>, title: string, audience: string, week: string): (r: Option<string>)
    ensures r.None? <==> forall i :: 0 <= i < |rows| ==> !IsMaterialFor(rows[i], title, audience, week)
    ensures r.Some? ==>
      exists i :: 0 <= i < |rows| && IsMaterialFor(rows[i], title, audience, week) && r.value == rows[i].content
        && forall j :: i < j < |rows| ==> !IsMaterialFor(rows[j], title, audience, week)
  {
    if rows == [] then None
    else
      var last := rows[|rows| - 1];
      if IsMaterialFor(last, title, audience, week) then Some(last.content)
      else
        var r := LatestMaterial(rows[..|rows| - 1], title, audience, week);
        assert forall i :: 0 <= i < |rows| - 1 ==> rows[..|rows| - 1][i] == rows[i];
        r
  }

  /** A listed Q&A entry. */
  datatype QaEntry = QaEntry(question: string, answer: string)

  /** `SELECT ... WHERE week_range = ? AND target_audience = ? ORDER BY created_at DESC`. */
  function QaListOf(rows: seq<QaRow>, week: string, audience: string): (r: seq<QaEntry>)
    ensures |r| <= |rows|
  {
    if rows == [] then []
    else
      var last := rows[|rows| - 1];
      (if last.weekRange == week && last.audience == audience then [QaEntry(last.question, last.answer)] else [])
      + QaListOf(rows[..|rows| - 1], week, audience)
  }

  /** The listing holds exactly the entries of the pair's rows. */
  lemma {:induction false} QaListMembers(rows: seq<QaRow>, week: string, audience: string)
    ensures forall e :: e in QaListOf(rows, week, audience) <==>
      exists r :: r in rows && r.weekRange == week && r.audience == audience && e == QaEntry(r.question, r.answer)
  {
    if rows != [] {
      var init := rows[..|rows| - 1];
      QaListMembers(init, week, audience);
      assert rows == init + [rows[|rows| - 1]];
    }
  }

  class AppDb {
    var materials: seq<MaterialRow>
    var qa: seq<QaRow>

    /** `init_db`: both tables empty. */
    constructor ()
      ensures materials == [] && qa == []
    {
      materials := [];
      qa := [];
    }

    /**
     * `generate_curriculum_material`: the latest stored material for the
     * (title, audience, week) triple, marked cached, without generating;
     * otherwise one generation, stored as exactly one new row.  A failing
     * generation is a 500 error and stores nothing.
     */
    method GenerateMaterial(
      title: string, audience: string, week: string, lessonContent: string,
      generate: (string, string, string) -> Option<string>)
      returns (r: Response<Material>)
      modifies this
      ensures qa == old(qa)
      ensures LatestMaterial(old(materials), title, audience, week).Some? ==>
        r == Ok(Material(LatestMaterial(old(materials), title, audience, week).value, true))
        && materials == old(materials)
      ensures LatestMaterial(old(materials), title, audience, week).None? && generate(audience, title, lessonContent).None? ==>
        r == HttpError(500) && materials == old(materials)
      ensures LatestMaterial(old(materials), title, audience, week).None? && generate(audience, title, lessonContent).Some? ==>
        var text := generate(audience, title, lessonContent).value;
        r == Ok(Material(text, false))
        && materials == old(materials) + [MaterialRow(title, audience, text, week)]
    {
      var cached := LatestMaterial(materials, title, audience, week);
      if cached.Some? {
        return Ok(Material(cached.value, true));
      }
      var generated := generate(audience, title, lessonContent);
      if generated.None? {
        return HttpError(500);
      }
      materials := materials + [MaterialRow(title, audience, generated.value, week)];
      return Ok(Material(generated.value, false));
    }

    /**
     * `chat_response`: the generated answer, cut to the 600-character rule,
     * logged as exactly one Q&A row and returned.  A failing generation is
     * a 500 error and logs nothing.
     */
    method Chat(
      week: string, audience: string, lessonTitle: string, lessonContent: string, reference: string,
      question: string, generate: (string, string, string, string) -> Option<string>)
      returns (r: Response<string>)
      modifies this
      ensures materials == old(materials)
      ensures generate(lessonTitle, lessonContent, reference, question).None? ==> r == HttpError(500) && qa == old(qa)
      ensures generate(lessonTitle, lessonContent, reference, question).Some? ==>
        var answer := Truncate(generate(lessonTitle, lessonContent, reference, question).value);
        r == Ok(answer) && qa == old(qa) + [QaRow(week, audience, question, answer)]
    {
      var response := generate(lessonTitle, lessonContent, reference, question);
      if response.None? {
        return HttpError(500);
      }
      var answer := TruncateAnswer(response.value);
      qa := qa + [QaRow(week, audience, question, answer)];
      return Ok(answer);
    }

    /** `get_qa_list`: the pair's entries, latest first. */
    method GetQaList(week: string, audience: string) returns (list: seq<QaEntry>)
      ensures list == QaListOf(qa, week, audience)
    {
      list := QaListOf(qa, week, audience);
    }
  }

  /** Once a material is stored, asking again for the same triple returns it from the cache. */
  lemma StoredMaterialIsServed(rows: seq<MaterialRow>, title: string, audience: string, week: string, text: string)
    ensures LatestMaterial(rows + [MaterialRow(title, audience, text, week)], title, audience, week) == Some(text)
  {
  }

  /** A chat answer just logged heads the pair's listing, ahead of every earlier entry. */
  lemma LoggedAnswerListedFirst(rows: seq<QaRow>, week: string, audience: string, question: string, answer: string)
    ensures QaListOf(rows + [QaRow(week, audience, question, answer)], week, audience)
      == [QaEntry(question, answer)] + QaListOf(rows, week, audience)
  {
    var all := rows + [QaRow(week, audience, question, answer)];
    assert all[..|all| - 1] == rows;
  }
}
