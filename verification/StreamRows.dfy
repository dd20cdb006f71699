/** One streamed call as the benchmark sees it: what the observation accumulates, and the row it is reduced to.
    Parsing an event's JSON is not part of this model: an arrival carries the parsed payload. */
module StreamRows {
  import opened Sequences
  import opened Text

  datatype Usage = Usage(promptTokens: nat, completionTokens: nat, totalTokens: nat)

  datatype Choice = Choice(index: int, finishReason: Option<string>, content: Option<string>, reasoning: Option<string>)

  /** `error` is present when truthy; it holds the error's code where that is a string. */
  datatype Payload =
    | DoneMark
    | InvalidJson
    | NotAnObject
    | Event(error: Option<Option<string>>, usage: Option<Usage>, choices: seq<Choice>)

  datatype Arrival = Arrival(payload: Payload, at: real)

  datatype Row = Row(
    status: Option<int>,
    errorCode: Option<string>,
    protocolSuccess: bool,
    nonempty: bool,
    qualityPass: bool,
    ttft: Option<real>,
    e2e: real,
    usage: Option<Usage>)

  // ---- Python text ----

  /** `str.isspace` of one character. */
  predicate IsBlank(c: char) {
    || '\U{0009}' <= c <= '\U{000D}' || '\U{001C}' <= c <= ' ' || c == '\U{0085}' || c == '\U{00A0}' || c == '\U{1680}'
    || '\U{2000}' <= c <= '\U{200A}' || c == '\U{2028}' || c == '\U{2029}' || c == '\U{202F}' || c == '\U{205F}'
    || c == '\U{3000}'
  }

  function SkipBlanks(s: string): (rest: string)
    ensures |rest| <= |s|
    ensures rest == [] || !IsBlank(rest[0])
    ensures rest == [] <==> forall i :: 0 <= i < |s| ==> IsBlank(s[i])
  {
    if s != [] && IsBlank(s[0]) then SkipBlanks(s[1..]) else s
  }

  function WordLength(s: string): (n: nat)
    ensures n <= |s|
    ensures s != [] && !IsBlank(s[0]) ==> n > 0
  {
    if s != [] && !IsBlank(s[0]) then 1 + WordLength(s[1..]) else 0
  }

  /** `s.split()`. */
  function Split(s: string): (words: seq<string>)
    ensures words == [] <==> forall i :: 0 <= i < |s| ==> IsBlank(s[i])
    decreases |s|
  {
    var t := SkipBlanks(s);
    if t == [] then [] else [t[..WordLength(t)]] + Split(t[WordLength(t)..])
  }

  predicate Word(s: string) {
    s != [] && forall i :: 0 <= i < |s| ==> !IsBlank(s[i])
  }

  function Spaced(words: seq<string>): string {
    if words == [] then [] else if |words| == 1 then words[0] else words[0] + " " + Spaced(words[1..])
  }

  lemma {:induction false} WordEnds(w: string, rest: string)
    requires Word(w) && (rest == [] || IsBlank(rest[0]))
    ensures WordLength(w + rest) == |w|
  {
    assert (w + rest)[1..] == w[1..] + rest;
    if |w| == 1 {
      assert (w + rest)[1..] == rest;
    } else {
      WordEnds(w[1..], rest);
    }
  }

  /** Splitting undoes joining with single spaces. */
  lemma {:induction false} SplitSpaced(words: seq<string>)
    requires forall w :: w in words ==> Word(w)
    ensures Split(Spaced(words)) == words
    ensures words != [] ==> Split(" " + Spaced(words)) == words
  {
    if words != [] {
      var w := words[0];
      var rest := if |words| == 1 then "" else " " + Spaced(words[1..]);
      var s := Spaced(words);
      assert w in words && s == w + rest && s[0] == w[0];
      WordEnds(w, rest);
      assert s[..|w|] == w && s[|w|..] == rest;
      SplitSpaced(words[1..]);
      assert Split(rest) == words[1..];
      assert (" " + s)[1..] == s;
      assert SkipBlanks(" " + s) == s;
      assert words == [w] + words[1..];
    }
  }

  function Counted(n: nat): seq<string> {
    if n == 0 then [] else Counted(n - 1) + [Digits(n)]
  }

  const EXPECTED := Counted(20)

  // ---- The observation ----

  datatype Observation = Observation(
    content: string,
    firstContent: Option<real>,
    lastContent: Option<real>,
    firstReasoning: Option<real>,
    contentChunks: nat,
    done: bool,
    finishReason: Option<string>,
    usage: Option<Usage>,
    errorCode: Option<string>)

  const NOTHING_YET := Observation("", None, None, None, 0, false, None, None, None)

  predicate CodeChar(c: char) {
    'A' <= c <= 'Z' || 'a' <= c <= 'z' || IsDigit(c) || c == '_' || c == '-'
  }

  function SafeCode(value: Option<string>, fallback: string): string {
    if value.Some? && 1 <= |value.value| <= 80 && forall i :: 0 <= i < |value.value| ==> CodeChar(value.value[i])
    then value.value else fallback
  }

  function Present(text: Option<string>): bool {
    text.Some? && text.value != ""
  }

  function Chosen(o: Observation, c: Choice, at: real): Observation {
    if c.index != 0 then o
    else
      var hasContent := Present(c.content);
      o.(finishReason := if c.finishReason.Some? then c.finishReason else o.finishReason,
         firstContent := if hasContent && o.firstContent.None? then Some(at) else o.firstContent,
         lastContent := if hasContent then Some(at) else o.lastContent,
         contentChunks := if hasContent then o.contentChunks + 1 else o.contentChunks,
         content := if hasContent then o.content + c.content.value else o.content,
         firstReasoning := if Present(c.reasoning) && o.firstReasoning.None? then Some(at) else o.firstReasoning)
  }

  function AllChosen(o: Observation, choices: seq<Choice>, at: real): Observation {
    if choices == [] then o else Chosen(AllChosen(o, choices[..|choices| - 1], at), choices[|choices| - 1], at)
  }

  function Pushed(o: Observation, p: Payload, at: real): Observation {
    match p
    case DoneMark => o.(done := true)
    case InvalidJson => o.(errorCode := Some("INVALID_STREAM_JSON"))
    case NotAnObject => o.(errorCode := Some("INVALID_STREAM_EVENT"))
    case Event(error, usage, choices) =>
      AllChosen(o.(errorCode := if error.Some? then Some(SafeCode(error.value, "STREAM_ERROR")) else o.errorCode,
                   usage := if usage.Some? then usage else o.usage), choices, at)
  }

  function After(history: seq<Arrival>): Observation {
    if history == [] then NOTHING_YET
    else Pushed(After(history[..|history| - 1]), history[|history| - 1].payload, history[|history| - 1].at)
  }

  class StreamObservation {
    var content: string
    var firstContent: Option<real>
    var lastContent: Option<real>
    var firstReasoning: Option<real>
    var contentChunks: nat
    var done: bool
    var finishReason: Option<string>
    var usage: Option<Usage>
    var errorCode: Option<string>

    constructor ()
      ensures View() == NOTHING_YET
    {
      content, firstContent, lastContent, firstReasoning, contentChunks := "", None, None, None, 0;
      done, finishReason, usage, errorCode := false, None, None, None;
    }

    function View(): Observation
      reads this
    {
      Observation(content, firstContent, lastContent, firstReasoning, contentChunks, done, finishReason, usage, errorCode)
    }

    method Push(p: Payload, elapsed: real)
      modifies this
      ensures View() == Pushed(old(View()), p, elapsed)
    {
      if p.DoneMark? {
        done := true;
        return;
      }
      if p.InvalidJson? {
        errorCode := Some("INVALID_STREAM_JSON");
        return;
      }
      if p.NotAnObject? {
        errorCode := Some("INVALID_STREAM_EVENT");
        return;
      }
      if p.error.Some? {
        errorCode := Some(SafeCode(p.error.value, "STREAM_ERROR"));
      }
      if p.usage.Some? {
        usage := p.usage;
      }
      ghost var base := View();
      for i := 0 to |p.choices|
        invariant View() == AllChosen(base, p.choices[..i], elapsed)
      {
        assert p.choices[..i + 1][..i] == p.choices[..i];
        Choose(p.choices[i], elapsed);
      }
      assert p.choices[..|p.choices|] == p.choices;
    }

    method Choose(choice: Choice, elapsed: real)
      modifies this
      ensures View() == Chosen(old(View()), choice, elapsed)
    {
      if choice.index != 0 {
        return;
      }
      if choice.finishReason.Some? {
        finishReason := choice.finishReason;
      }
      if Present(choice.content) {
        if firstContent.None? {
          firstContent := Some(elapsed);
        }
        lastContent := Some(elapsed);
        contentChunks := contentChunks + 1;
        content := content + choice.content.value;
      }
      if Present(choice.reasoning) && firstReasoning.None? {
        firstReasoning := Some(elapsed);
      }
    }

    /** `fields`, together with what `call_gateway` adds to the row. */
    function Fields(status: Option<int>, transportError: Option<string>, e2e: real): (row: Row)
      reads this
      ensures row == RowOf(View(), status, transportError, e2e)
    {
      var complete := status == Some(200) && done && errorCode.None? && transportError.None? && finishReason.Some?;
      var quality := complete && usage.Some? && finishReason == Some("stop") && Split(content) == EXPECTED;
      var failure := if transportError.None? && errorCode.None? && status == Some(200) && !complete
                     then Some("INCOMPLETE_STREAM") else transportError;
      Row(status, failure, complete, SkipBlanks(content) != "", quality, firstContent, e2e, usage)
    }
  }

  function RowOf(o: Observation, status: Option<int>, transportError: Option<string>, e2e: real): Row {
    var complete := status == Some(200) && o.done && o.errorCode.None? && transportError.None? && o.finishReason.Some?;
    var failure := if transportError.None? && o.errorCode.None? && status == Some(200) && !complete
                   then Some("INCOMPLETE_STREAM") else transportError;
    Row(status, failure, complete, Split(o.content) != [],
        complete && o.usage.Some? && o.finishReason == Some("stop") && Split(o.content) == EXPECTED,
        o.firstContent, e2e, o.usage)
  }

  /** The read loop of one call. */
  method Observe(history: seq<Arrival>) returns (observation: StreamObservation)
    ensures fresh(observation) && observation.View() == After(history)
  {
    observation := new StreamObservation();
    for i := 0 to |history|
      invariant fresh(observation) && observation.View() == After(history[..i])
    {
      assert history[..i + 1][..i] == history[..i];
      observation.Push(history[i].payload, history[i].at);
    }
    assert history[..|history|] == history;
  }

  // ---- What an observation means, independently of the order in which it was built ----

  function Piece(c: Choice, at: real): seq<(string, real)> {
    if c.index == 0 && c.content.Some? && c.content.value != "" then [(c.content.value, at)] else []
  }

  /** The non-empty pieces of content of the first choice, in order, each with its arrival time. */
  function Pieces(choices: seq<Choice>, at: real): seq<(string, real)> {
    if choices == [] then [] else Pieces(choices[..|choices| - 1], at) + Piece(choices[|choices| - 1], at)
  }

  function Stream(history: seq<Arrival>): seq<(string, real)> {
    if history == [] then []
    else
      var a := history[|history| - 1];
      Stream(history[..|history| - 1]) + if a.payload.Event? then Pieces(a.payload.choices, a.at) else []
  }

  function Joined(pieces: seq<(string, real)>): string {
    if pieces == [] then "" else Joined(pieces[..|pieces| - 1]) + pieces[|pieces| - 1].0
  }

  function Reason(c: Choice): seq<string> {
    if c.index == 0 && c.finishReason.Some? then [c.finishReason.value] else []
  }

  /** The finish reasons given for the first choice, in order. */
  function Reasons(choices: seq<Choice>): seq<string> {
    if choices == [] then [] else Reasons(choices[..|choices| - 1]) + Reason(choices[|choices| - 1])
  }

  function Finishes(history: seq<Arrival>): seq<string> {
    if history == [] then []
    else
      var p := history[|history| - 1].payload;
      Finishes(history[..|history| - 1]) + if p.Event? then Reasons(p.choices) else []
  }

  predicate Failing(p: Payload) {
    p.InvalidJson? || p.NotAnObject? || (p.Event? && p.error.Some?)
  }

  /** The fields that the content pieces determine. */
  ghost predicate Tells(o: Observation, pieces: seq<(string, real)>) {
    && o.content == Joined(pieces)
    && o.contentChunks == |pieces|
    && o.firstContent == (if pieces == [] then None else Some(pieces[0].1))
    && o.lastContent == (if pieces == [] then None else Some(pieces[|pieces| - 1].1))
    && (pieces != [] ==> o.content != "")
  }

  function Last<T>(values: seq<T>): Option<T> {
    if values == [] then None else Some(values[|values| - 1])
  }

  /** The code an event reports, if it is a failing one. */
  function Code(p: Payload): seq<string> {
    match p
    case DoneMark => []
    case InvalidJson => ["INVALID_STREAM_JSON"]
    case NotAnObject => ["INVALID_STREAM_EVENT"]
    case Event(error, _, _) => if error.Some? then [SafeCode(error.value, "STREAM_ERROR")] else []
  }

  function Codes(history: seq<Arrival>): seq<string> {
    if history == [] then [] else Codes(history[..|history| - 1]) + Code(history[|history| - 1].payload)
  }

  function UsageIn(p: Payload): seq<Usage> {
    if p.Event? && p.usage.Some? then [p.usage.value] else []
  }

  /** The well-formed usage reports, in order. */
  function Usages(history: seq<Arrival>): seq<Usage> {
    if history == [] then [] else Usages(history[..|history| - 1]) + UsageIn(history[|history| - 1].payload)
  }

  lemma JoinedMore(pieces: seq<(string, real)>, piece: (string, real))
    ensures Joined(pieces + [piece]) == Joined(pieces) + piece.0
  {
    assert (pieces + [piece])[..|pieces|] == pieces;
  }

  lemma ChoiceTells(o: Observation, c: Choice, at: real, pieces: seq<(string, real)>, reasons: seq<string>)
    requires Tells(o, pieces) && o.finishReason == Last(reasons)
    ensures Tells(Chosen(o, c, at), pieces + Piece(c, at))
    ensures Chosen(o, c, at).finishReason == Last(reasons + Reason(c))
  {
    var more := pieces + Piece(c, at);
    assert reasons + [] == reasons;
    if c.index == 0 && Present(c.content) {
      JoinedMore(pieces, (c.content.value, at));
    } else {
      assert more == pieces;
    }
  }

  lemma {:induction false} ChoicesTell(o: Observation, choices: seq<Choice>, at: real, pieces: seq<(string, real)>, reasons: seq<string>)
    requires Tells(o, pieces) && o.finishReason == Last(reasons)
    ensures Tells(AllChosen(o, choices, at), pieces + Pieces(choices, at))
    ensures AllChosen(o, choices, at).finishReason == Last(reasons + Reasons(choices))
  {
    if choices == [] {
      assert pieces + [] == pieces && reasons + [] == reasons;
    } else {
      var front, c := choices[..|choices| - 1], choices[|choices| - 1];
      ChoicesTell(o, front, at, pieces, reasons);
      ChoiceTells(AllChosen(o, front, at), c, at, pieces + Pieces(front, at), reasons + Reasons(front));
      Associate(pieces, Pieces(front, at), Piece(c, at));
      Associate(reasons, Reasons(front), Reason(c));
    }
  }

  lemma {:induction false} ChoicesKeep(o: Observation, choices: seq<Choice>, at: real)
    ensures var t := AllChosen(o, choices, at); t.done == o.done && t.errorCode == o.errorCode && t.usage == o.usage
  {
    if choices != [] {
      ChoicesKeep(o, choices[..|choices| - 1], at);
    }
  }

  lemma PayloadTells(o: Observation, a: Arrival, pieces: seq<(string, real)>, reasons: seq<string>)
    requires Tells(o, pieces) && o.finishReason == Last(reasons)
    ensures var t, p := Pushed(o, a.payload, a.at), a.payload;
      && Tells(t, pieces + if p.Event? then Pieces(p.choices, a.at) else [])
      && t.finishReason == Last(reasons + if p.Event? then Reasons(p.choices) else [])
      && (t.done <==> o.done || p.DoneMark?)
  {
    assert pieces + [] == pieces && reasons + [] == reasons;
    match a.payload {
      case Event(error, usage, choices) =>
        var u := o.(errorCode := if error.Some? then Some(SafeCode(error.value, "STREAM_ERROR")) else o.errorCode,
                    usage := if usage.Some? then usage else o.usage);
        ChoicesTell(u, choices, a.at, pieces, reasons);
        ChoicesKeep(u, choices, a.at);
      case _ =>
    }
  }

  lemma PayloadValues(o: Observation, a: Arrival)
    ensures var t := Pushed(o, a.payload, a.at);
      && t.errorCode == (if Code(a.payload) == [] then o.errorCode else Last(Code(a.payload)))
      && t.usage == (if UsageIn(a.payload) == [] then o.usage else Last(UsageIn(a.payload)))
  {
    match a.payload {
      case Event(error, usage, choices) =>
        ChoicesKeep(o.(errorCode := if error.Some? then Some(SafeCode(error.value, "STREAM_ERROR")) else o.errorCode,
                       usage := if usage.Some? then usage else o.usage), choices, a.at);
      case _ =>
    }
  }

  lemma LastAppend<T>(front: seq<T>, more: seq<T>)
    ensures Last(front + more) == if more == [] then Last(front) else Last(more)
  {
    assert more == [] ==> front + more == front;
  }

  /** The last error code and the last usage report win. */
  lemma {:induction false} LastValues(history: seq<Arrival>)
    ensures After(history).errorCode == Last(Codes(history))
    ensures After(history).usage == Last(Usages(history))
  {
    if history != [] {
      var front, a := history[..|history| - 1], history[|history| - 1];
      LastValues(front);
      PayloadValues(After(front), a);
      LastAppend(Codes(front), Code(a.payload));
      LastAppend(Usages(front), UsageIn(a.payload));
    }
  }

  lemma {:induction false} CodesPresent(history: seq<Arrival>)
    ensures Codes(history) != [] <==> exists a :: a in history && Failing(a.payload)
  {
    if history != [] {
      var front, a := history[..|history| - 1], history[|history| - 1];
      CodesPresent(front);
      assert history == front + [a];
    }
  }

  lemma {:induction false} UsagesPresent(history: seq<Arrival>)
    ensures Usages(history) != [] <==> exists a :: a in history && a.payload.Event? && a.payload.usage.Some?
  {
    if history != [] {
      var front, a := history[..|history| - 1], history[|history| - 1];
      UsagesPresent(front);
      assert history == front + [a];
    }
  }

  /** The accumulated fields are functions of the whole history: no event is lost, doubled or reordered. */
  lemma ObservationTells(history: seq<Arrival>)
    ensures var o := After(history);
      && Tells(o, Stream(history))
      && o.finishReason == Last(Finishes(history))
      && o.errorCode == Last(Codes(history))
      && o.usage == Last(Usages(history))
      && (o.done <==> exists a :: a in history && a.payload.DoneMark?)
      && (o.errorCode.Some? <==> exists a :: a in history && Failing(a.payload))
      && (o.usage.Some? <==> exists a :: a in history && a.payload.Event? && a.payload.usage.Some?)
  {
    StreamTells(history);
    LastValues(history);
    CodesPresent(history);
    UsagesPresent(history);
  }

  lemma {:induction false} StreamTells(history: seq<Arrival>)
    ensures var o := After(history);
      && Tells(o, Stream(history))
      && o.finishReason == Last(Finishes(history))
      && (o.done <==> exists a :: a in history && a.payload.DoneMark?)
  {
    if history != [] {
      var front, a := history[..|history| - 1], history[|history| - 1];
      StreamTells(front);
      PayloadTells(After(front), a, Stream(front), Finishes(front));
      assert history == front + [a];
      assert forall x :: x in history <==> x in front || x == a;
    }
  }

  /** A row passes the quality check exactly when the call and its stream did everything the rule asks. */
  lemma QualityRule(history: seq<Arrival>, status: Option<int>, transportError: Option<string>, e2e: real)
    ensures RowOf(After(history), status, transportError, e2e).qualityPass <==>
            && status == Some(200) && transportError.None?
            && (exists a :: a in history && a.payload.DoneMark?)
            && (forall a :: a in history ==> !Failing(a.payload))
            && (exists a :: a in history && a.payload.Event? && a.payload.usage.Some?)
            && Last(Finishes(history)) == Some("stop")
            && Split(Joined(Stream(history))) == EXPECTED
  {
    ObservationTells(history);
  }

  /** What holds of every row a call produces. */
  ghost predicate RowSound(row: Row) {
    && (row.qualityPass ==> row.protocolSuccess && row.nonempty && row.ttft.Some? && row.usage.Some?)
    && (row.protocolSuccess ==> row.status == Some(200) && row.errorCode.None?)
  }

  lemma RowsAreSound(history: seq<Arrival>, status: Option<int>, transportError: Option<string>, e2e: real)
    ensures RowSound(RowOf(After(history), status, transportError, e2e))
  {
    ObservationTells(history);
    var o := After(history);
    if Split(o.content) == EXPECTED {
      assert Split(o.content) != [];
      assert o.content != "";
    }
  }

  /** The time to first token is the earliest content time of the stream, the last content time the latest. */
  lemma FirstTokenIsEarliest(history: seq<Arrival>, k: nat)
    requires forall i, j :: 0 <= i < j < |history| ==> history[i].at <= history[j].at
    requires k < |Stream(history)|
    ensures var o := After(history);
      o.firstContent.Some? && o.lastContent.Some? && o.firstContent.value <= Stream(history)[k].1 <= o.lastContent.value
  {
    ObservationTells(history);
    StreamInOrder(history);
  }

  lemma {:induction false} PiecesAt(choices: seq<Choice>, at: real)
    ensures forall i :: 0 <= i < |Pieces(choices, at)| ==> Pieces(choices, at)[i].1 == at
  {
    if choices != [] {
      PiecesAt(choices[..|choices| - 1], at);
    }
  }

  lemma {:induction false} StreamInOrder(history: seq<Arrival>)
    requires forall i, j :: 0 <= i < j < |history| ==> history[i].at <= history[j].at
    ensures forall i, j :: 0 <= i <= j < |Stream(history)| ==> Stream(history)[i].1 <= Stream(history)[j].1
    ensures history != [] ==> forall i :: 0 <= i < |Stream(history)| ==> Stream(history)[i].1 <= history[|history| - 1].at
  {
    if history != [] {
      var n := |history| - 1;
      StreamInOrder(history[..n]);
      if history[n].payload.Event? {
        PiecesAt(history[n].payload.choices, history[n].at);
      }
    }
  }

  lemma {:induction false} CountedWords(n: nat)
    ensures |Counted(n)| == n && forall w :: w in Counted(n) ==> Word(w)
  {
    if n > 0 {
      CountedWords(n - 1);
      assert Word(Digits(n));
    }
  }

  /** The answer the prompt asks for, streamed in any pieces, passes. */
  lemma ExpectedAnswerPasses(history: seq<Arrival>, e2e: real)
    requires exists a :: a in history && a.payload.DoneMark?
    requires forall a :: a in history ==> !Failing(a.payload)
    requires exists a :: a in history && a.payload.Event? && a.payload.usage.Some?
    requires Last(Finishes(history)) == Some("stop")
    requires Joined(Stream(history)) == Spaced(EXPECTED)
    ensures RowOf(After(history), Some(200), None, e2e).qualityPass
  {
    CountedWords(20);
    SplitSpaced(EXPECTED);
    QualityRule(history, Some(200), None, e2e);
  }

  // ---- Every field of the row ----

  /** The time of the first piece of content. */
  function FirstTime(pieces: seq<(string, real)>): Option<real> {
    if pieces == [] then None else Some(pieces[0].1)
  }

  /** The call and its stream came to their proper end. */
  ghost predicate Ended(history: seq<Arrival>, status: Option<int>, transportError: Option<string>) {
    && status == Some(200) && transportError.None?
    && (exists a :: a in history && a.payload.DoneMark?)
    && (forall a :: a in history ==> !Failing(a.payload))
    && Finishes(history) != []
  }

  /** Every field of the row, from the history of the stream. */
  lemma RowTells(history: seq<Arrival>, status: Option<int>, transportError: Option<string>, e2e: real)
    ensures var r := RowOf(After(history), status, transportError, e2e);
      && r.status == status && r.e2e == e2e
      && r.ttft == FirstTime(Stream(history))
      && r.usage == Last(Usages(history))
      && (r.nonempty <==> exists i :: 0 <= i < |Joined(Stream(history))| && !IsBlank(Joined(Stream(history))[i]))
      && (r.protocolSuccess <==> Ended(history, status, transportError))
      && (transportError.Some? ==> r.errorCode == transportError)
      && (transportError.None? ==>
            if status == Some(200) && (forall a :: a in history ==> !Failing(a.payload)) && !Ended(history, status, transportError)
            then r.errorCode == Some("INCOMPLETE_STREAM") else r.errorCode.None?)
  {
    ObservationTells(history);
  }

  // ---- Reasoning ----

  function Thought(c: Choice, at: real): seq<real> {
    if c.index == 0 && c.reasoning.Some? && c.reasoning.value != "" then [at] else []
  }

  function Thoughts(choices: seq<Choice>, at: real): seq<real> {
    if choices == [] then [] else Thoughts(choices[..|choices| - 1], at) + Thought(choices[|choices| - 1], at)
  }

  /** The arrival times of the pieces of reasoning of the first choice, in order. */
  function Reasoning(history: seq<Arrival>): seq<real> {
    if history == [] then []
    else
      var a := history[|history| - 1];
      Reasoning(history[..|history| - 1]) + if a.payload.Event? then Thoughts(a.payload.choices, a.at) else []
  }

  function First<T>(values: seq<T>): Option<T> {
    if values == [] then None else Some(values[0])
  }

  lemma FirstAppend<T>(front: seq<T>, more: seq<T>)
    ensures First(front + more) == if front == [] then First(more) else First(front)
  {
  }

  lemma {:induction false} ChoicesThink(o: Observation, choices: seq<Choice>, at: real, times: seq<real>)
    requires o.firstReasoning == First(times)
    ensures AllChosen(o, choices, at).firstReasoning == First(times + Thoughts(choices, at))
  {
    if choices == [] {
      assert times + [] == times;
    } else {
      var front, c := choices[..|choices| - 1], choices[|choices| - 1];
      ChoicesThink(o, front, at, times);
      Associate(times, Thoughts(front, at), Thought(c, at));
      FirstAppend(times + Thoughts(front, at), Thought(c, at));
    }
  }

  lemma {:induction false} ReasoningTells(history: seq<Arrival>)
    ensures After(history).firstReasoning == First(Reasoning(history))
  {
    if history != [] {
      var front, a := history[..|history| - 1], history[|history| - 1];
      ReasoningTells(front);
      assert Reasoning(front) + [] == Reasoning(front);
      match a.payload {
        case Event(error, usage, choices) =>
          ChoicesThink(After(front).(errorCode := if error.Some? then Some(SafeCode(error.value, "STREAM_ERROR")) else After(front).errorCode,
                                     usage := if usage.Some? then usage else After(front).usage), choices, a.at, Reasoning(front));
        case _ =>
      }
    }
  }

  // ---- Splitting, codes and the expected answer ----

  lemma SkipFront(b: char, t: string)
    requires IsBlank(b)
    ensures SkipBlanks([b] + t) == SkipBlanks(t) && Split([b] + t) == Split(t)
  {
    assert ([b] + t)[1..] == t;
  }

  lemma {:induction false} SkipMore(s: string, b: char, t: string)
    requires IsBlank(b)
    ensures SkipBlanks(s + [b] + t) == if SkipBlanks(s) == [] then SkipBlanks(t) else SkipBlanks(s) + [b] + t
  {
    if s == [] {
      assert s + [b] + t == [b] + t;
      SkipFront(b, t);
    } else {
      assert (s + [b] + t)[1..] == s[1..] + [b] + t;
      if IsBlank(s[0]) {
        SkipMore(s[1..], b, t);
      }
    }
  }

  lemma {:induction false} LengthMore(s: string, b: char, t: string)
    requires IsBlank(b)
    ensures WordLength(s + [b] + t) == WordLength(s)
  {
    if s != [] && !IsBlank(s[0]) {
      assert (s + [b] + t)[1..] == s[1..] + [b] + t;
      LengthMore(s[1..], b, t);
    }
  }

  /** A blank separates: the words of the whole are the words before it and the words after it. */
  lemma {:induction false} SplitAtBlank(s: string, b: char, t: string)
    requires IsBlank(b)
    ensures Split(s + [b] + t) == Split(s) + Split(t)
    decreases |s|
  {
    var u := SkipBlanks(s);
    SkipMore(s, b, t);
    if u == [] {
      assert Split(s) == [];
      SplitSkipped(s + [b] + t, t);
    } else {
      var n := WordLength(u);
      LengthMore(u, b, t);
      assert (u + [b] + t)[..n] == u[..n] && (u + [b] + t)[n..] == u[n..] + [b] + t;
      SplitAtBlank(u[n..], b, t);
      Associate([u[..n]], Split(u[n..]), Split(t));
    }
  }

  lemma SplitSkipped(s: string, t: string)
    requires SkipBlanks(s) == SkipBlanks(t)
    ensures Split(s) == Split(t)
  {
  }

  /** A text without blanks is its only word. */
  lemma SplitWord(w: string)
    requires Word(w)
    ensures Split(w) == [w]
  {
    SplitSpaced([w]);
  }

  /** The code points of letters, digits, underscore and hyphen. */
  predicate PlainCode(n: int) {
    48 <= n < 58 || 65 <= n < 91 || 97 <= n < 123 || n == 95 || n == 45
  }

  /** A code is kept when it has 1 to 80 characters, all of them letters, digits, underscores or hyphens. */
  lemma SafeCodeKeeps(value: Option<string>, fallback: string)
    ensures var kept := value.Some? && 1 <= |value.value| <= 80 && forall c :: c in value.value ==> PlainCode(c as int);
      SafeCode(value, fallback) == if kept then value.value else fallback
  {
    assert forall c: char :: CodeChar(c) <==> PlainCode(c as int);
    if value.Some? {
      assert forall i :: 0 <= i < |value.value| ==> value.value[i] in value.value;
    }
  }

  /** The answer the prompt asks for: the 20 integers from 1 on, in digits without leading zeros. */
  lemma ExpectedIs()
    ensures |EXPECTED| == 20
    ensures forall i :: 0 <= i < 20 ==> AllDigits(EXPECTED[i]) && Value(EXPECTED[i]) == i + 1
    ensures forall i :: 0 <= i < 20 ==> EXPECTED[i] != "" && EXPECTED[i][0] != '0'
  {
    CountedIs(20);
  }

  lemma {:induction false} CountedIs(n: nat)
    ensures |Counted(n)| == n
    ensures forall i :: 0 <= i < n ==> AllDigits(Counted(n)[i]) && Value(Counted(n)[i]) == i + 1
    ensures forall i :: 0 <= i < n ==> Counted(n)[i] != "" && Counted(n)[i][0] != '0'
  {
    if n > 0 {
      CountedIs(n - 1);
    }
  }
}
