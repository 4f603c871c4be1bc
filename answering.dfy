/** The record of the current quiz question and the leader-driven answer
    decision: a fresh record per question, the choice of an index from the
    assistant's reply, the at-most-once write of the answer, and the end of
    the round. */
module Answering {

  import opened Wrappers
  import opened Protocol

  /** The current question as the supervisor records and broadcasts it.
      `askingChatGpt` is true while an assistant reply is awaited. */
  datatype Question = Question(
    qtype: string,
    answersCount: int,
    allowedAnswers: int,
    text: Option<string>,
    answers: seq<string>,
    askingChatGpt: bool,
    answer: Option<int>,
    correct: Option<bool>)

  /** JavaScript truthiness of an optional string: present and non-empty. */
  predicate Truthy(s: Option<string>)
  {
    s.Some? && s.value != ""
  }

  /** The record a leader `question` event creates: the event's fields, no
      answer and no verdict yet, and an assistant request pending exactly when
      the question text is truthy. */
  function NewRecord(e: Event): (q: Question)
    requires e.Asked?
    ensures q.answer.None? && q.correct.None?
    ensures q.askingChatGpt <==> Truthy(e.text)
    ensures q.qtype == e.qtype && q.answersCount == e.answersCount && q.allowedAnswers == e.allowedAnswers
    ensures q.text == e.text && q.answers == e.answers
  {
    Question(e.qtype, e.answersCount, e.allowedAnswers, e.text, e.answers, Truthy(e.text), None, None)
  }

  /** The assistant's reply names a label that exists and is non-empty
      (the reply is 1-based). */
  predicate Usable(answers: seq<string>, reply: Option<int>)
  {
    reply.Some? && 1 <= reply.value <= |answers| && answers[reply.value - 1] != ""
  }

  /** The index the leader answers with. `reply` is the integer read from the
      assistant's reply (`None` when it could not be read); `pick` is the
      random fallback, which lies in range, or is 0 when there are no labels. */
  function ChooseAnswer(answers: seq<string>, reply: Option<int>, pick: nat): (r: int)
    requires pick == 0 || pick < |answers|
    ensures |answers| > 0 ==> 0 <= r < |answers|
    ensures |answers| == 0 ==> r == 0
    ensures Usable(answers, reply) ==> r == reply.value - 1
    ensures !Usable(answers, reply) ==> r == pick
  {
    var idx := if reply.Some? then reply.value - 1 else -1;
    if 0 <= idx < |answers| && answers[idx] != "" then idx else pick
  }

  /** An answer has been recorded or the round is over. */
  predicate Settled(q: Question)
  {
    q.answer.Some? || q.correct.Some?
  }

  /** Recording a chosen index: it becomes the answer and no assistant reply
      is awaited any more; nothing else changes. */
  function Record(q: Question, idx: int): (r: Question)
    ensures r.answer == Some(idx) && !r.askingChatGpt
    ensures r.(answer := q.answer, askingChatGpt := q.askingChatGpt) == q
  {
    q.(answer := Some(idx), askingChatGpt := false)
  }

  /** The guarded write of an assistant-chosen index: a settled record is
      never overwritten; an unsettled one takes the index as its answer. Either
      way the record is settled afterwards. */
  function AutoWrite(q: Question, idx: int): (r: Question)
    ensures Settled(r)
    ensures Settled(q) ==> r == q
    ensures !Settled(q) ==> r.answer == Some(idx) && !r.askingChatGpt
    ensures !Settled(q) ==> r.(answer := q.answer, askingChatGpt := q.askingChatGpt) == q
  {
    if Settled(q) then q else Record(q, idx)
  }

  /** The leader's `end` event: the verdict is stored and no assistant reply
      is awaited any more. */
  function EndRound(q: Question, correct: bool): (r: Question)
    ensures r.correct == Some(correct) && !r.askingChatGpt
    ensures r.(correct := q.correct, askingChatGpt := q.askingChatGpt) == q
  {
    q.(correct := Some(correct), askingChatGpt := false)
  }

  /** First writer wins: once an answer is recorded, a later assistant write
      leaves the record as it was, whatever index it carries. */
  lemma FirstWriterWins(q: Question, first: int, later: int)
    ensures AutoWrite(Record(q, first), later) == Record(q, first)
    ensures AutoWrite(Record(q, first), later).answer == Some(first)
  {
  }

  /** A reply arriving after the round ended is discarded. */
  lemma StaleAfterEnd(q: Question, correct: bool, idx: int)
    ensures AutoWrite(EndRound(q, correct), idx) == EndRound(q, correct)
  {
  }
}
