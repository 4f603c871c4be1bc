/** Validation of operator commands. Every command is checked field by field
    in a fixed order; the first failing check names the reason the connection
    is closed with. A command that passes becomes an `Action` for the
    supervisor to carry out. */
module Validation {

  import opened Wrappers
  import opened Protocol
  import opened Answering

  datatype Verdict<+T> = Accept(value: T) | Reject(reason: string)

  /** The payload of an operator command: its fields by name. */
  type Message = map<string, Json>

  /** A field of the payload; `None` when it is absent (`undefined`). */
  function Field(msg: Message, key: string): (r: Option<Json>)
    ensures r.Some? <==> key in msg
    ensures r.Some? ==> r.value == msg[key]
  {
    if key in msg then Some(msg[key]) else None
  }

  const PleaseLogin := "Please login"

  /** The symbols of the two-factor challenge. */
  const Symbols: seq<string> := ["triangle", "diamond", "circle", "square"]

  /** A join code: at most eight decimal digits (the empty code included). */
  predicate IsCode(s: string)
  {
    |s| <= 8 && forall i :: 0 <= i < |s| ==> '0' <= s[i] <= '9'
  }

  /** No element occurs twice. */
  predicate Distinct<T(==)>(s: seq<T>)
  {
    forall i, j :: 0 <= i < j < |s| ==> s[i] != s[j]
  }

  function Elems<T(==)>(s: seq<T>): set<T>
  {
    set x | x in s
  }

  lemma {:induction false} ElemsBound<T>(s: seq<T>)
    ensures |Elems(s)| <= |s|
  {
    if s != [] {
      ElemsBound(s[1..]);
      assert Elems(s) == {s[0]} + Elems(s[1..]);
    }
  }

  /** The duplicate test by set size, as the source writes it, agrees with
      pairwise distinctness. */
  lemma {:induction false} UniqueIffDistinct<T>(s: seq<T>)
    ensures |Elems(s)| == |s| <==> Distinct(s)
  {
    if s != [] {
      var tail := s[1..];
      UniqueIffDistinct(tail);
      ElemsBound(tail);
      assert Elems(s) == {s[0]} + Elems(tail);
      if s[0] in tail {
        assert Elems(s) == Elems(tail);
        var j :| 0 <= j < |tail| && tail[j] == s[0];
        assert s[0] == s[j + 1];
      } else {
        assert |Elems(s)| == 1 + |Elems(tail)|;
        if Distinct(tail) {
          forall i, j | 0 <= i < j < |s| ensures s[i] != s[j] {
            if i > 0 { assert s[i] == tail[i - 1] && s[j] == tail[j - 1]; }
            else { assert s[j] == tail[j - 1]; }
          }
        } else {
          var i, j :| 0 <= i < j < |tail| && tail[i] == tail[j];
          assert s[i + 1] == s[j + 1];
        }
      }
    }
  }

  /** The strings of an array all of whose items are strings. */
  function Strings(items: seq<Json>): (r: seq<string>)
    requires forall i :: 0 <= i < |items| ==> items[i].JStr?
    ensures |r| == |items|
    ensures forall i :: 0 <= i < |r| ==> items[i] == JStr(r[i])
  {
    if items == [] then [] else [items[0].s] + Strings(items[1..])
  }

  /** A well-formed two-factor answer: an array of exactly four strings, each
      one of the four symbols, none repeated. */
  predicate IsA2fPayload(v: Option<Json>)
  {
    v.Some? && v.value.JArr? && |v.value.items| == 4
    && (forall i :: 0 <= i < 4 ==> v.value.items[i].JStr? && v.value.items[i].s in Symbols)
    && Distinct(v.value.items)
  }

  function CheckLogin(token: Option<Json>, expected: string): (r: Verdict<()>)
    ensures r.Accept? <==> token == Some(JStr(expected))
    ensures token.None? ==> r == Reject("Missing token")
    ensures token.Some? && !token.value.JStr? ==> r == Reject("Token must be a string")
    ensures token.Some? && token.value.JStr? && token.value.s != expected ==> r == Reject("Invalid token")
  {
    if token.None? then Reject("Missing token")
    else if !token.value.JStr? then Reject("Token must be a string")
    else if token.value.s != expected then Reject("Invalid token")
    else Accept(())
  }

  function CheckCode(logged: bool, code: Option<Json>): (r: Verdict<string>)
    ensures r.Accept? <==> logged && code.Some? && code.value.JStr? && IsCode(code.value.s)
    ensures r.Accept? ==> code == Some(JStr(r.value))
    ensures !logged ==> r == Reject(PleaseLogin)
    ensures logged && code.None? ==> r == Reject("Missing code")
    ensures logged && code.Some? && !code.value.JStr? ==> r == Reject("Code must be a string")
    ensures logged && code.Some? && code.value.JStr? && !IsCode(code.value.s) ==> r == Reject("Invalid code")
  {
    if !logged then Reject(PleaseLogin)
    else if code.None? then Reject("Missing code")
    else if !code.value.JStr? then Reject("Code must be a string")
    else if !IsCode(code.value.s) then Reject("Invalid code")
    else Accept(code.value.s)
  }

  function CheckName(logged: bool, name: Option<Json>): (r: Verdict<string>)
    ensures r.Accept? <==> logged && name.Some? && name.value.JStr?
    ensures r.Accept? ==> name == Some(JStr(r.value))
    ensures !logged ==> r == Reject(PleaseLogin)
    ensures logged && name.None? ==> r == Reject("Missing name")
    ensures logged && name.Some? && !name.value.JStr? ==> r == Reject("Name must be a string")
  {
    if !logged then Reject(PleaseLogin)
    else if name.None? then Reject("Missing name")
    else if !name.value.JStr? then Reject("Name must be a string")
    else Accept(name.value.s)
  }

  /** The two-factor relay check. `waiting`: some slot has a pending challenge;
      `failed`: some slot reported a failed attempt. */
  function CheckA2f(logged: bool, a2f: Option<Json>, waiting: bool, failed: bool): (r: Verdict<seq<string>>)
    ensures r.Accept? <==> logged && IsA2fPayload(a2f) && waiting && !failed
    ensures r.Accept? ==> (a2f.Some? && a2f.value.JArr? && |r.value| == |a2f.value.items| == 4
      && forall i :: 0 <= i < 4 ==> a2f.value.items[i] == JStr(r.value[i]))
    ensures !logged ==> r == Reject(PleaseLogin)
    ensures logged && a2f.None? ==> r == Reject("Missing a2f")
    ensures logged && a2f.Some? && !a2f.value.JArr? ==> r == Reject("A2f must be an array")
    ensures logged && a2f.Some? && a2f.value.JArr? && |a2f.value.items| != 4 ==> r == Reject("A2f must have 4 elements")
    ensures logged && a2f.Some? && a2f.value.JArr? && |a2f.value.items| == 4
      && (exists i :: 0 <= i < 4 && !a2f.value.items[i].JStr?)
      ==> r == Reject("A2f elements must be strings")
    ensures logged && a2f.Some? && a2f.value.JArr? && |a2f.value.items| == 4
      && (forall i :: 0 <= i < 4 ==> a2f.value.items[i].JStr?)
      && (exists i :: 0 <= i < 4 && a2f.value.items[i].s !in Symbols)
      ==> r == Reject("A2f elements must be triangle, diamond, circle or square")
    ensures logged && IsA2fPayload(a2f) && !waiting ==> r == Reject("No bot waiting for a2f")
    ensures logged && IsA2fPayload(a2f) && waiting && failed ==> r == Reject("A2f failed")
    ensures logged && a2f.Some? && a2f.value.JArr? && |a2f.value.items| == 4
      && (forall i :: 0 <= i < 4 ==> a2f.value.items[i].JStr? && a2f.value.items[i].s in Symbols)
      && !Distinct(a2f.value.items)
      ==> r == Reject("A2f elements must be unique")
  {
    if !logged then Reject(PleaseLogin)
    else if a2f.None? then Reject("Missing a2f")
    else if !a2f.value.JArr? then Reject("A2f must be an array")
    else
      var items := a2f.value.items;
      if |items| != 4 then Reject("A2f must have 4 elements")
      else if exists i :: 0 <= i < |items| && !items[i].JStr? then Reject("A2f elements must be strings")
      else if exists i :: 0 <= i < |items| && items[i].s !in Symbols then
        Reject("A2f elements must be triangle, diamond, circle or square")
      else if |Elems(items)| != |items| then
        UniqueIffDistinct(items);
        Reject("A2f elements must be unique")
      else if !waiting then
        UniqueIffDistinct(items);
        Reject("No bot waiting for a2f")
      else if failed then
        UniqueIffDistinct(items);
        Reject("A2f failed")
      else
        UniqueIffDistinct(items);
        Accept(Strings(items))
  }

  /** The value the source's failure check reads for every slot: it tests a
      property name under which no flag is ever stored, so it is always
      `undefined`, i.e. false. */
  const A2fFailedAsRead := false

  /** The two-factor check as the source writes it: the failure test reads
      the never-written property, so a reported failure never rejects. */
  function CheckA2fAsWritten(logged: bool, a2f: Option<Json>, waiting: bool): (r: Verdict<seq<string>>)
    ensures r.Reject? ==> r.reason != "A2f failed"
    ensures r.Accept? <==> logged && IsA2fPayload(a2f) && waiting
  {
    CheckA2f(logged, a2f, waiting, A2fFailedAsRead)
  }

  /** The input that shows the discrepancy: a well-formed answer while one slot
      waits and one slot has reported a failure is relayed as written, but
      rejected by the intended check. */
  lemma A2fFailureIgnoredAsWritten()
    ensures var payload := Some(JArr([JStr("triangle"), JStr("diamond"), JStr("circle"), JStr("square")]));
      CheckA2fAsWritten(true, payload, true).Accept?
      && CheckA2f(true, payload, true, true) == Reject("A2f failed")
  {
    var items := [JStr("triangle"), JStr("diamond"), JStr("circle"), JStr("square")];
    assert Distinct(items);
  }

  function CheckAnswer(logged: bool, answer: Option<Json>, question: Option<Question>): (r: Verdict<int>)
    ensures r.Accept? <==> (logged && answer.Some? && answer.value.JNum? && question.Some?
      && 0 <= answer.value.n < question.value.answersCount && question.value.answer.None?)
    ensures r.Accept? ==> answer == Some(JNum(r.value))
    ensures !logged ==> r == Reject(PleaseLogin)
    ensures logged && answer.None? ==> r == Reject("Missing answer")
    ensures logged && answer.Some? && !answer.value.JNum? ==> r == Reject("Answer must be a number")
    ensures logged && answer.Some? && answer.value.JNum? && question.None? ==> r == Reject("No question")
    ensures logged && answer.Some? && answer.value.JNum? && question.Some?
      && !(0 <= answer.value.n < question.value.answersCount)
      ==> r == Reject("Invalid answer")
    ensures logged && answer.Some? && answer.value.JNum? && question.Some?
      && 0 <= answer.value.n < question.value.answersCount && question.value.answer.Some?
      ==> r == Reject("Question already answered")
  {
    if !logged then Reject(PleaseLogin)
    else if answer.None? then Reject("Missing answer")
    else if !answer.value.JNum? then Reject("Answer must be a number")
    else if question.None? then Reject("No question")
    else if answer.value.n < 0 || answer.value.n >= question.value.answersCount then Reject("Invalid answer")
    else if question.value.answer.Some? then Reject("Question already answered")
    else Accept(answer.value.n)
  }

  function CheckRemove(logged: bool, id: Option<Json>, poolSize: nat): (r: Verdict<nat>)
    ensures r.Accept? <==> logged && id.Some? && id.value.JNum? && 0 <= id.value.n < poolSize
    ensures r.Accept? ==> id == Some(JNum(r.value)) && r.value < poolSize
    ensures !logged ==> r == Reject(PleaseLogin)
    ensures logged && id.None? ==> r == Reject("Missing id")
    ensures logged && id.Some? && !id.value.JNum? ==> r == Reject("Id must be a number")
    ensures logged && id.Some? && id.value.JNum? && !(0 <= id.value.n < poolSize) ==> r == Reject("Invalid id")
  {
    if !logged then Reject(PleaseLogin)
    else if id.None? then Reject("Missing id")
    else if !id.value.JNum? then Reject("Id must be a number")
    else if !(0 <= id.value.n < poolSize) then Reject("Invalid id")
    else Accept(id.value.n)
  }

  /** What a command that passed validation asks the supervisor to do. */
  datatype Action =
    | DoLogin
    | DoSetCode(code: string)
    | DoAddBot(name: string)
    | DoA2f(symbols: seq<string>)
    | DoAnswer(index: int)
    | DoRemove(slot: nat)

  /** What validation may consult: the shared token, the connection's login
      flag, whether some slot waits for or has failed a two-factor challenge,
      the current question and the pool size. */
  datatype Context = Context(
    token: string,
    logged: bool,
    waiting: bool,
    failed: bool,
    question: Option<Question>,
    poolSize: nat)

  /** The commands that demand a logged connection. */
  const Guarded: set<string> := {"SET_CODE", "ADD_BOT", "A2F", "ANSWER", "REMOVE_BOT"}

  function Map<T>(v: Verdict<T>, f: T -> Action): (r: Verdict<Action>)
    ensures r.Reject? <==> v.Reject?
    ensures r.Reject? ==> r.reason == v.reason
    ensures r.Accept? ==> r.value == f(v.value)
  {
    match v
    case Accept(x) => Accept(f(x))
    case Reject(reason) => Reject(reason)
  }

  /** Dispatch on the command name and run its checks. */
  function Validate(command: string, msg: Message, ctx: Context): (r: Verdict<Action>)
    ensures r.Accept? && r.value.DoRemove? ==> r.value.slot < ctx.poolSize
    ensures r.Accept? && r.value.DoAnswer? ==>
      ctx.question.Some? && ctx.question.value.answer.None? && 0 <= r.value.index < ctx.question.value.answersCount
  {
    if command == "LOGIN" then
      Map(CheckLogin(Field(msg, "token"), ctx.token), _ => DoLogin)
    else if command == "SET_CODE" then
      Map(CheckCode(ctx.logged, Field(msg, "code")), c => DoSetCode(c))
    else if command == "ADD_BOT" then
      Map(CheckName(ctx.logged, Field(msg, "name")), n => DoAddBot(n))
    else if command == "A2F" then
      Map(CheckA2f(ctx.logged, Field(msg, "a2f"), ctx.waiting, ctx.failed), s => DoA2f(s))
    else if command == "ANSWER" then
      Map(CheckAnswer(ctx.logged, Field(msg, "answer"), ctx.question), i => DoAnswer(i))
    else if command == "REMOVE_BOT" then
      Map(CheckRemove(ctx.logged, Field(msg, "id"), ctx.poolSize), i => DoRemove(i))
    else Reject("Unknown command")
  }

  /** The login gate: a connection that has not logged in is closed with
      "Please login" on every known command but LOGIN, before any field is
      looked at; an unknown command is refused as such, logged or not; and
      nothing but LOGIN is accepted from it. */
  lemma LoginGate(command: string, msg: Message, ctx: Context)
    ensures !ctx.logged && command in Guarded ==> Validate(command, msg, ctx) == Reject(PleaseLogin)
    ensures command != "LOGIN" && command !in Guarded ==> Validate(command, msg, ctx) == Reject("Unknown command")
    ensures Validate(command, msg, ctx).Accept? ==> command == "LOGIN" || ctx.logged
    ensures Validate(command, msg, ctx) == Accept(DoLogin) <==>
      command == "LOGIN" && Field(msg, "token") == Some(JStr(ctx.token))
  {
  }

  /** An operator answer cannot overwrite an answer already recorded, by the
      assistant or by an earlier operator answer. */
  lemma AnswerAtMostOnce(msg: Message, ctx: Context, q: Question, first: int)
    requires ctx.question == Some(Record(q, first))
    ensures !Validate("ANSWER", msg, ctx).Accept?
  {
  }
}
