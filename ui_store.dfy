/**
 * The front end's curriculum store (frontend/src/stores/curriculum.js):
 * the week list, the selected and current week, the audience, the lesson
 * shown, the material generated for it, the chat about it and the Q&A
 * list.  Each action runs to completion; the server calls it awaits are
 * parameters that answer or fail (None).
 */
module UiStore {
  import opened Wrappers
  import opened Api
  import opened AzureApp

  /** A week as the server lists it. */
  datatype UiWeek = UiWeek(weekRange: string, startDate: string, endDate: string)

  /** The lesson the server returns for a week. */
  datatype Lesson = Lesson(title: string, content: string)

  datatype Message = Message(role: string, content: string)

  datatype GenerateRequest = GenerateRequest(
    lessonTitle: string, lessonContent: string, targetAudience: string, weekRange: string)

  datatype ChatRequest = ChatRequest(
    lessonTitle: string, lessonContent: string, referenceMaterial: string, userQuestion: string,
    weekRange: string, targetAudience: string)

  const DefaultAudience: string := "성인"
  const ChatFailedReply: string := "답변 생성 중 오류가 발생했습니다. 다시 시도해주세요."
  const LoadFailed: string := "데이터를 불러오는 중 오류가 발생했습니다"
  const LessonFailed: string := "공과 정보를 불러오는 중 오류가 발생했습니다."
  const GenerateFailed: string := "공과 자료 생성 중 오류가 발생했습니다"

  class CurriculumStore {
    var weeks: seq<UiWeek>
    var currentWeekIndex: int
    var selectedWeekIndex: int
    var targetAudience: string
    var lessonData: Option<Lesson>
    var generatedMaterial: string
    var isGenerating: bool
    var isCachedMaterial: bool
    var qaList: seq<QaItem>
    var chatHistory: seq<Message>
    var isChatLoading: bool
    var isLoading: bool
    var error: Option<string>

    constructor ()
      ensures weeks == [] && currentWeekIndex == 0 && selectedWeekIndex == 0
      ensures targetAudience == DefaultAudience && lessonData.None? && generatedMaterial == ""
      ensures !isGenerating && !isCachedMaterial && qaList == [] && chatHistory == []
      ensures !isChatLoading && isLoading && error.None?
    {
      weeks, currentWeekIndex, selectedWeekIndex := [], 0, 0;
      targetAudience, lessonData, generatedMaterial := DefaultAudience, None, "";
      isGenerating, isCachedMaterial := false, false;
      qaList, chatHistory, isChatLoading := [], [], false;
      isLoading, error := true, None;
    }

    /** `selectedWeek`: the week at the selected index, or null when the index is out of range. */
    function SelectedWeek(): (r: Option<UiWeek>)
      reads this
      ensures r.Some? <==> 0 <= selectedWeekIndex < |weeks|
      ensures r.Some? ==> r.value == weeks[selectedWeekIndex]
    {
      if 0 <= selectedWeekIndex < |weeks| then Some(weeks[selectedWeekIndex]) else None
    }

    /** `weekRange`: the selected week's range, or "" without a selected week. */
    function WeekRange(): (r: string)
      reads this
      ensures SelectedWeek().None? ==> r == ""
      ensures SelectedWeek().Some? ==> r == SelectedWeek().value.weekRange
    {
      match SelectedWeek()
      case None => ""
      case Some(w) => w.weekRange
    }

    /** `loadQAList`: nothing without a week range; the list on success; unchanged on failure. */
    method LoadQaList(fetchQa: (string, string) -> Option<seq<QaItem>>)
      modifies this
      ensures WeekRange() == old(WeekRange()) && targetAudience == old(targetAudience)
      ensures old(WeekRange()) == "" || fetchQa(old(WeekRange()), targetAudience).None? ==> qaList == old(qaList)
      ensures old(WeekRange()) != "" && fetchQa(old(WeekRange()), targetAudience).Some? ==>
        qaList == fetchQa(old(WeekRange()), targetAudience).value
      ensures weeks == old(weeks) && selectedWeekIndex == old(selectedWeekIndex) && currentWeekIndex == old(currentWeekIndex)
      ensures lessonData == old(lessonData) && generatedMaterial == old(generatedMaterial)
      ensures chatHistory == old(chatHistory) && isCachedMaterial == old(isCachedMaterial)
      ensures isGenerating == old(isGenerating) && isChatLoading == old(isChatLoading)
      ensures isLoading == old(isLoading) && error == old(error)
    {
      var range := WeekRange();
      if range == "" {
        return;
      }
      var fetched := fetchQa(range, targetAudience);
      if fetched.Some? {
        qaList := fetched.value;
      }
    }

    /**
     * `loadLessonData`: nothing without a selected week; otherwise the
     * week's lesson and then its Q&A list, or an error message.
     */
    method LoadLessonData(getLesson: UiWeek -> Option<Lesson>, fetchQa: (string, string) -> Option<seq<QaItem>>)
      modifies this
      ensures weeks == old(weeks) && selectedWeekIndex == old(selectedWeekIndex) && currentWeekIndex == old(currentWeekIndex)
      ensures targetAudience == old(targetAudience) && generatedMaterial == old(generatedMaterial)
      ensures chatHistory == old(chatHistory) && isCachedMaterial == old(isCachedMaterial)
      ensures isGenerating == old(isGenerating) && isChatLoading == old(isChatLoading) && isLoading == old(isLoading)
      ensures old(SelectedWeek()).None? ==> lessonData == old(lessonData) && qaList == old(qaList) && error == old(error)
      ensures old(SelectedWeek()).Some? && getLesson(old(SelectedWeek()).value).None? ==>
        lessonData == old(lessonData) && qaList == old(qaList) && error == Some(LessonFailed)
      ensures old(SelectedWeek()).Some? && getLesson(old(SelectedWeek()).value).Some? ==>
        lessonData == getLesson(old(SelectedWeek()).value) && error == old(error)
      ensures old(SelectedWeek()).Some? && getLesson(old(SelectedWeek()).value).Some? ==>
        var range := old(SelectedWeek()).value.weekRange;
        qaList == if range != "" && fetchQa(range, targetAudience).Some? then fetchQa(range, targetAudience).value
                  else old(qaList)
    {
      var week := SelectedWeek();
      if week.None? {
        return;
      }
      var lesson := getLesson(week.value);
      if lesson.None? {
        error := Some(LessonFailed);
        return;
      }
      lessonData := lesson;
      LoadQaList(fetchQa);
    }

    /**
     * `loadInitialData`: the week list and the server's current index, which
     * becomes both the current and the selected index; loading always ends.
     */
    method LoadInitialData(
      initial: Option<(seq<UiWeek>, int)>, getLesson: UiWeek -> Option<Lesson>,
      fetchQa: (string, string) -> Option<seq<QaItem>>)
      modifies this
      ensures !isLoading
      ensures initial.None? ==>
        error == Some(LoadFailed) && weeks == old(weeks)
        && selectedWeekIndex == old(selectedWeekIndex) && currentWeekIndex == old(currentWeekIndex)
      ensures initial.Some? ==>
        weeks == initial.value.0 && currentWeekIndex == initial.value.1 && selectedWeekIndex == initial.value.1
      ensures generatedMaterial == old(generatedMaterial) && chatHistory == old(chatHistory)
      ensures targetAudience == old(targetAudience) && isCachedMaterial == old(isCachedMaterial)
      ensures isGenerating == old(isGenerating) && isChatLoading == old(isChatLoading)
      ensures initial.None? || SelectedWeek().None? ==> lessonData == old(lessonData) && qaList == old(qaList)
      ensures initial.Some? && SelectedWeek().None? ==> error.None?
      ensures initial.Some? && SelectedWeek().Some? && getLesson(SelectedWeek().value).None? ==>
        lessonData == old(lessonData) && qaList == old(qaList) && error == Some(LessonFailed)
      ensures initial.Some? && SelectedWeek().Some? && getLesson(SelectedWeek().value).Some? ==>
        var range := SelectedWeek().value.weekRange;
        lessonData == getLesson(SelectedWeek().value) && error.None?
        && qaList == if range != "" && fetchQa(range, targetAudience).Some? then fetchQa(range, targetAudience).value
                     else old(qaList)
    {
      isLoading := true;
      error := None;
      if initial.None? {
        error := Some(LoadFailed);
      } else {
        weeks := initial.value.0;
        currentWeekIndex := initial.value.1;
        selectedWeekIndex := initial.value.1;
        if SelectedWeek().Some? {
          LoadLessonData(getLesson, fetchQa);
        }
      }
      isLoading := false;
    }

    /**
     * `selectWeek`: choosing the selected week again changes nothing; another
     * index clears the material, the chat and the cached flag, selects it and
     * loads its lesson.
     */
    method SelectWeek(index: int, getLesson: UiWeek -> Option<Lesson>, fetchQa: (string, string) -> Option<seq<QaItem>>)
      modifies this
      ensures index == old(selectedWeekIndex) ==>
        weeks == old(weeks) && lessonData == old(lessonData) && generatedMaterial == old(generatedMaterial)
        && chatHistory == old(chatHistory) && isCachedMaterial == old(isCachedMaterial)
        && qaList == old(qaList) && error == old(error) && selectedWeekIndex == old(selectedWeekIndex)
      ensures index != old(selectedWeekIndex) ==>
        selectedWeekIndex == index && generatedMaterial == "" && chatHistory == [] && !isCachedMaterial
      ensures index != old(selectedWeekIndex) && !(0 <= index < |weeks|) ==>
        lessonData == old(lessonData) && qaList == old(qaList) && error == old(error)
      ensures index != old(selectedWeekIndex) && 0 <= index < |weeks| && getLesson(weeks[index]).None? ==>
        lessonData == old(lessonData) && qaList == old(qaList) && error == Some(LessonFailed)
      ensures index != old(selectedWeekIndex) && 0 <= index < |weeks| && getLesson(weeks[index]).Some? ==>
        var range := weeks[index].weekRange;
        lessonData == getLesson(weeks[index]) && error == old(error)
        && qaList == if range != "" && fetchQa(range, targetAudience).Some? then fetchQa(range, targetAudience).value
                     else old(qaList)
      ensures weeks == old(weeks) && targetAudience == old(targetAudience) && currentWeekIndex == old(currentWeekIndex)
      ensures isGenerating == old(isGenerating) && isChatLoading == old(isChatLoading) && isLoading == old(isLoading)
    {
      if index == selectedWeekIndex {
        return;
      }
      generatedMaterial := "";
      chatHistory := [];
      isCachedMaterial := false;
      selectedWeekIndex := index;
      LoadLessonData(getLesson, fetchQa);
    }

    /**
     * `setTargetAudience`: the same audience changes nothing; another one
     * clears the material, the chat and the cached flag, is set, and reloads
     * the Q&A list.
     */
    method SetTargetAudience(audience: string, fetchQa: (string, string) -> Option<seq<QaItem>>)
      modifies this
      ensures audience == old(targetAudience) ==>
        generatedMaterial == old(generatedMaterial) && chatHistory == old(chatHistory)
        && isCachedMaterial == old(isCachedMaterial) && qaList == old(qaList)
      ensures audience != old(targetAudience) ==>
        generatedMaterial == "" && chatHistory == [] && !isCachedMaterial
      ensures audience != old(targetAudience) ==>
        var range := old(WeekRange());
        qaList == if range != "" && fetchQa(range, audience).Some? then fetchQa(range, audience).value
                  else old(qaList)
      ensures targetAudience == audience
      ensures weeks == old(weeks) && selectedWeekIndex == old(selectedWeekIndex) && lessonData == old(lessonData)
      ensures currentWeekIndex == old(currentWeekIndex) && error == old(error)
      ensures isGenerating == old(isGenerating) && isChatLoading == old(isChatLoading) && isLoading == old(isLoading)
    {
      if audience == targetAudience {
        return;
      }
      generatedMaterial := "";
      chatHistory := [];
      isCachedMaterial := false;
      targetAudience := audience;
      LoadQaList(fetchQa);
    }

    /**
     * `generateMaterial`: nothing without a lesson or while a generation is
     * running; otherwise the server's material and cached flag, or an error
     * message, and the generating flag is down at the end.
     */
    method GenerateMaterial(generate: GenerateRequest -> Option<Material>)
      modifies this
      ensures old(lessonData).None? || old(isGenerating) ==>
        generatedMaterial == old(generatedMaterial) && isCachedMaterial == old(isCachedMaterial)
        && isGenerating == old(isGenerating) && error == old(error)
      ensures old(lessonData).Some? && !old(isGenerating) ==> !isGenerating
      ensures old(lessonData).Some? && !old(isGenerating) ==>
        var request := GenerateRequest(old(lessonData).value.title, old(lessonData).value.content,
          old(targetAudience), old(WeekRange()));
        if generate(request).Some? then
          generatedMaterial == generate(request).value.material
          && isCachedMaterial == generate(request).value.isCached && error.None?
        else
          generatedMaterial == old(generatedMaterial) && isCachedMaterial == old(isCachedMaterial)
          && error == Some(GenerateFailed)
      ensures weeks == old(weeks) && selectedWeekIndex == old(selectedWeekIndex) && lessonData == old(lessonData)
      ensures chatHistory == old(chatHistory) && targetAudience == old(targetAudience)
      ensures qaList == old(qaList) && currentWeekIndex == old(currentWeekIndex)
      ensures isChatLoading == old(isChatLoading) && isLoading == old(isLoading)
    {
      if lessonData.None? || isGenerating {
        return;
      }
      isGenerating := true;
      error := None;
      var result := generate(GenerateRequest(lessonData.value.title, lessonData.value.content, targetAudience, WeekRange()));
      if result.Some? {
        generatedMaterial := result.value.material;
        isCachedMaterial := result.value.isCached;
      } else {
        error := Some(GenerateFailed);
      }
      isGenerating := false;
    }

    /**
     * `sendChatMessage`: nothing without a lesson, without generated
     * material or while a chat is running; otherwise exactly two messages
     * are appended, the question and then the answer (or the failure
     * reply), and the chat flag is down at the end.
     */
    method SendChatMessage(
      question: string, chat: ChatRequest -> Option<string>, fetchQa: (string, string) -> Option<seq<QaItem>>)
      modifies this
      ensures old(lessonData).None? || old(generatedMaterial) == "" || old(isChatLoading) ==>
        chatHistory == old(chatHistory) && isChatLoading == old(isChatLoading) && qaList == old(qaList)
      ensures old(lessonData).Some? && old(generatedMaterial) != "" && !old(isChatLoading) ==>
        var request := ChatRequest(old(lessonData).value.title, old(lessonData).value.content,
          old(generatedMaterial), question, old(WeekRange()), old(targetAudience));
        var reply := if chat(request).Some? then chat(request).value else ChatFailedReply;
        chatHistory == old(chatHistory) + [Message("user", question), Message("assistant", reply)]
        && !isChatLoading
      ensures old(lessonData).Some? && old(generatedMaterial) != "" && !old(isChatLoading) ==>
        var range := old(WeekRange());
        var request := ChatRequest(old(lessonData).value.title, old(lessonData).value.content,
          old(generatedMaterial), question, range, old(targetAudience));
        qaList == if chat(request).Some? && range != "" && fetchQa(range, old(targetAudience)).Some?
                  then fetchQa(range, old(targetAudience)).value
                  else old(qaList)
      ensures weeks == old(weeks) && selectedWeekIndex == old(selectedWeekIndex) && lessonData == old(lessonData)
      ensures generatedMaterial == old(generatedMaterial) && targetAudience == old(targetAudience)
      ensures currentWeekIndex == old(currentWeekIndex) && error == old(error)
      ensures isGenerating == old(isGenerating) && isCachedMaterial == old(isCachedMaterial) && isLoading == old(isLoading)
    {
      if lessonData.None? || generatedMaterial == "" || isChatLoading {
        return;
      }
      isChatLoading := true;
      chatHistory := chatHistory + [Message("user", question)];
      var answer := chat(ChatRequest(lessonData.value.title, lessonData.value.content,
        generatedMaterial, question, WeekRange(), targetAudience));
      if answer.Some? {
        chatHistory := chatHistory + [Message("assistant", answer.value)];
        LoadQaList(fetchQa);
      } else {
        chatHistory := chatHistory + [Message("assistant", ChatFailedReply)];
      }
      isChatLoading := false;
    }
  }
}
