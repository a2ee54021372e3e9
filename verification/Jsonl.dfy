/** Input files (services/jsonl.py). JSON text is taken as parsed; a line also says whether its
    bytes are UTF-8, since validation reads leniently and the run does not. `show` is Python's `str`
    on JSON values. */
module Jsonl {
  datatype Json =
    | Null
    | Bool(b: bool)
    | Number(text: string, zero: bool)
    | Str(s: string)
    | Arr(items: seq<Json>)
    | Obj(fields: map<string, Json>)

  type Object = map<string, Json>

  datatype Parsed = NotJson | Value(json: Json)

  datatype Text = Blank | Content(parsed: Parsed)

  datatype Line = Line(utf8: bool, text: Text)

  datatype Problem = InvalidJson | NotAnObject | PromptNotText | NothingToSend | NoMessages | BadMessage

  datatype Item = Item(index: nat, customId: string, body: Object)

  datatype Result = Ok(item: Item) | Err(problem: Problem)

  datatype Option<T> = None | Some(value: T)

  // ------------------------------------------------------------------ one line

  function Get(o: Object, key: string): Json {
    if key in o then o[key] else Null
  }

  predicate Truthy(j: Json) {
    match j
    case Null => false
    case Bool(b) => b
    case Number(_, zero) => !zero
    case Str(s) => s != ""
    case Arr(items) => items != []
    case Obj(fields) => fields != map[]
  }

  function Decimal(n: nat): string {
    var digit := ["0123456789"[n % 10]];
    if n < 10 then digit else Decimal(n / 10) + digit
  }

  function CustomId(o: Object, index: nat, show: Json -> string): string {
    if Truthy(Get(o, "custom_id")) then show(Get(o, "custom_id"))
    else if Truthy(Get(o, "id")) then show(Get(o, "id"))
    else "request-" + Decimal(index + 1)
  }

  /** Keys of the envelope that are no part of the request. */
  function Envelope(): set<string> {
    {"custom_id", "id", "method", "url"}
  }

  function UserMessage(prompt: string): Json {
    Obj(map["role" := Str("user"), "content" := Str(prompt)])
  }

  predicate IsMessage(m: Json) {
    m.Obj? && "role" in m.fields && "content" in m.fields
  }

  /** What the rest of the system relies on in a request. */
  predicate IsRequest(body: Object) {
    var messages := Get(body, "messages");
    messages.Arr? && messages.items != [] && forall m <- messages.items :: IsMessage(m)
  }

  /** `normalize_line`, after `json.loads`. */
  function Normalize(line: Parsed, index: nat, show: Json -> string): Result {
    if line.NotJson? then Err(InvalidJson)
    else if !line.json.Obj? then Err(NotAnObject)
    else
      var o := line.json.fields;
      if Get(o, "body").Obj? then Check(o["body"].fields, CustomId(o, index, show), index)
      else if "messages" in o then Check(o - Envelope(), CustomId(o, index, show), index)
      else if "prompt" !in o then Err(NothingToSend)
      else if !o["prompt"].Str? then Err(PromptNotText)
      else
        Check((o - Envelope() - {"prompt"})["messages" := Arr([UserMessage(o["prompt"].s)])],
              CustomId(o, index, show), index)
  }

  function Check(body: Object, customId: string, index: nat): Result {
    var messages := Get(body, "messages");
    if !messages.Arr? || messages.items == [] then Err(NoMessages)
    else if exists m <- messages.items :: !IsMessage(m) then Err(BadMessage)
    else Ok(Item(index, customId, body))
  }

  /** The number a string of digits stands for. */
  function Read(digits: string): nat {
    if digits == [] then 0
    else
      var ch := digits[|digits| - 1];
      Read(digits[..|digits| - 1]) * 10 + (if '0' <= ch <= '9' then ch as int - '0' as int else 0)
  }

  lemma {:induction false} DecimalReads(n: nat)
    ensures forall ch <- Decimal(n) :: '0' <= ch <= '9'
    ensures Read(Decimal(n)) == n
    ensures |Decimal(n)| > 0 && (n > 0 ==> Decimal(n)[0] != '0')
    decreases n
  {
    var digit := "0123456789"[n % 10];
    assert digit as int == '0' as int + n % 10;
    if n < 10 {
      assert Decimal(n) == [digit];
      assert Decimal(n)[..0] == [];
    } else {
      DecimalReads(n / 10);
      assert Decimal(n)[..|Decimal(n)| - 1] == Decimal(n / 10);
    }
  }

  /** Python's idea of a value that counts as none. */
  lemma FalsyExactly(j: Json)
    ensures !Truthy(j) <==> j == Null || j == Bool(false) || (j.Number? && j.zero) || j == Str("") || j == Arr([]) || j == Obj(map[])
  {
  }

  /** An item is named by `custom_id`, failing that by `id`, failing that by its place, counted from one;
      a name that counts as none is passed over. */
  lemma CustomIdRule(o: Object, index: nat, show: Json -> string)
    ensures "custom_id" in o && Truthy(o["custom_id"]) ==> CustomId(o, index, show) == show(o["custom_id"])
    ensures ("custom_id" in o ==> !Truthy(o["custom_id"])) && "id" in o && Truthy(o["id"]) ==>
      CustomId(o, index, show) == show(o["id"])
    ensures ("custom_id" in o ==> !Truthy(o["custom_id"])) && ("id" in o ==> !Truthy(o["id"])) ==>
      && CustomId(o, index, show)[..8] == "request-" && |CustomId(o, index, show)| > 8
      && (forall ch <- CustomId(o, index, show)[8..] :: '0' <= ch <= '9')
      && Read(CustomId(o, index, show)[8..]) == index + 1
  {
    DecimalReads(index + 1);
    var numbered := "request-" + Decimal(index + 1);
    assert numbered[8..] == Decimal(index + 1);
  }

  /** A non-empty list of messages, each with a role and a content. */
  predicate HasMessages(o: Object) {
    && "messages" in o && o["messages"].Arr? && |o["messages"].items| > 0
    && (forall i | 0 <= i < |o["messages"].items| ::
          var m := o["messages"].items[i]; m.Obj? && "role" in m.fields && "content" in m.fields)
  }

  lemma RequestsHaveMessages(o: Object)
    ensures IsRequest(o) <==> HasMessages(o)
  {
    if IsRequest(o) {
      var ms := Get(o, "messages").items;
      assert forall i | 0 <= i < |ms| :: ms[i] in ms;
    }
  }

  /** Which of the three forms a line has, when it is accepted, and what request it makes: a `body` object
      is the request; else `messages` and whatever else is no part of the envelope; else a text `prompt`. */
  lemma AcceptedExactly(o: Object, index: nat, show: Json -> string)
    ensures var r := Normalize(Value(Obj(o)), index, show);
            && (r.Ok? ==> r.item.index == index && r.item.customId == CustomId(o, index, show))
            && if "body" in o && o["body"].Obj? then
                 && (r.Ok? <==> HasMessages(o["body"].fields)) && (r.Ok? ==> r.item.body == o["body"].fields)
               else if "messages" in o then
                 && (r.Ok? <==> HasMessages(o))
                 && (r.Ok? ==> r.item.body == o - {"custom_id", "id", "method", "url"})
               else
                 && (r.Ok? <==> "prompt" in o && o["prompt"].Str?)
                 && (r.Ok? ==>
                       && r.item.body.Keys == o.Keys - {"custom_id", "id", "method", "url", "prompt"} + {"messages"}
                       && r.item.body["messages"] == Arr([Obj(map["role" := Str("user"), "content" := o["prompt"]])])
                       && (forall k | k in r.item.body && k != "messages" :: r.item.body[k] == o[k]))
  {
    if "body" in o && o["body"].Obj? {
      RequestsHaveMessages(o["body"].fields);
    } else if "messages" in o {
      RequestsHaveMessages(o);
      assert Get(o - Envelope(), "messages") == Get(o, "messages");
    } else if "prompt" in o && o["prompt"].Str? {
      var message := UserMessage(o["prompt"].s);
      assert IsMessage(message);
    }
  }

  /** And why it is not accepted. */
  lemma RejectedBecause(line: Parsed, index: nat, show: Json -> string)
    ensures var r := Normalize(line, index, show);
            && (line.NotJson? <==> r == Err(InvalidJson))
            && (line.Value? && !line.json.Obj? <==> r == Err(NotAnObject))
            && (r == Err(PromptNotText) ==>
                  line.Value? && line.json.Obj? && "prompt" in line.json.fields && !line.json.fields["prompt"].Str?)
            && (r == Err(NothingToSend) ==> line.Value? && line.json.Obj? && {"messages", "prompt"} !! line.json.fields.Keys)
            && (line.Value? && line.json.Obj? && {"body", "messages", "prompt"} !! line.json.fields.Keys ==> r == Err(NothingToSend))
  {
  }

  /** A body or a `messages` line is turned away for having no messages, or for a malformed one. */
  lemma MessagesAreChecked(o: Object, index: nat, show: Json -> string)
    requires ("body" in o && o["body"].Obj?) || "messages" in o
    ensures var r := Normalize(Value(Obj(o)), index, show);
            var sent := if "body" in o && o["body"].Obj? then o["body"].fields else o;
            var some := "messages" in sent && sent["messages"].Arr? && |sent["messages"].items| > 0;
            && (r == Err(NoMessages) <==> !some)
            && (r == Err(BadMessage) <==> some && !HasMessages(sent))
  {
    AcceptedExactly(o, index, show);
    assert "messages" in o ==> Get(o - Envelope(), "messages") == Get(o, "messages");
  }

  /** Every item that comes out can be sent, and carries its own index. */
  lemma NormalizedIsRequest(line: Parsed, index: nat, show: Json -> string)
    requires Normalize(line, index, show).Ok?
    ensures IsRequest(Normalize(line, index, show).item.body) && Normalize(line, index, show).item.index == index
  {
  }

  /** Whether a line is accepted does not depend on where it stands. */
  lemma AcceptedAnywhere(line: Parsed, i: nat, j: nat, show: Json -> string)
    ensures Normalize(line, i, show).Ok? <==> Normalize(line, j, show).Ok?
    ensures Normalize(line, i, show).Ok? ==> Normalize(line, i, show).item.body == Normalize(line, j, show).item.body
  {
  }

  /** The short form means the long one: a prompt is a single user message. */
  lemma PromptIsUserMessage(o: Object, prompt: string, index: nat, show: Json -> string)
    requires "prompt" in o && o["prompt"] == Str(prompt) && "messages" !in o && !Get(o, "body").Obj?
    ensures Normalize(Value(Obj(o)), index, show) ==
      Normalize(Value(Obj((o - {"prompt"})["messages" := Arr([UserMessage(prompt)])])), index, show)
  {
  }

  /** Normal form: an item written out as `custom_id` and `body` is read back as it was. */
  lemma NormalFormRoundTrips(line: Parsed, index: nat, show: Json -> string)
    requires Normalize(line, index, show).Ok? && Normalize(line, index, show).item.customId != ""
    requires forall s: string :: show(Str(s)) == s
    ensures var item := Normalize(line, index, show).item;
            Normalize(Value(Obj(map["custom_id" := Str(item.customId), "body" := Obj(item.body)])), index, show) == Ok(item)
  {
  }

  // ------------------------------------------------------------------ the whole file

  /** The lines that count: blank ones take no index. */
  function Texts(lines: seq<Line>): seq<Parsed> {
    if lines == [] then [] else
      var rest, l := Texts(lines[..|lines| - 1]), lines[|lines| - 1];
      if l.text.Blank? then rest else rest + [l.text.parsed]
  }

  predicate AllUtf8(lines: seq<Line>) {
    forall l <- lines :: l.utf8
  }

  /** How many lines a strict reader can hand out: all of them, or else none past the first that
      does not decode; it decodes ahead, so it may give up earlier. */
  predicate Readable(lines: seq<Line>, n: nat) {
    n <= |lines| && AllUtf8(lines[..n]) && (AllUtf8(lines) ==> n == |lines|)
  }

  datatype Stop = Malformed(problem: Problem) | Undecodable

  /** What `iter_items` yields and how it ends. */
  predicate IsIteration(items: seq<Item>, stop: Option<Stop>, lines: seq<Line>, n: nat, show: Json -> string) {
    n <= |lines| &&
    var ts := Texts(lines[..n]);
    && |items| <= |ts|
    && (forall i | 0 <= i < |items| :: Normalize(ts[i], i, show) == Ok(items[i]))
    && match stop
       case None => |items| == |ts| && n == |lines|
       case Some(Undecodable) => |items| == |ts| && n < |lines|
       case Some(Malformed(p)) => |items| < |ts| && Normalize(ts[|items|], |items|, show) == Err(p)
  }

  predicate Yielded(items: seq<Item>, ts: seq<Parsed>, show: Json -> string) {
    |items| == |ts| && forall i | 0 <= i < |items| :: Normalize(ts[i], i, show) == Ok(items[i])
  }

  lemma OneMoreItem(items: seq<Item>, ts: seq<Parsed>, t: Parsed, show: Json -> string)
    requires Yielded(items, ts, show) && Normalize(t, |ts|, show).Ok?
    ensures Yielded(items + [Normalize(t, |ts|, show).item], ts + [t], show)
  {
  }

  /** What was read of the first lines is what was read of them as part of the file. */
  lemma ReadSoFar(lines: seq<Line>, n: nat, k: nat)
    requires k < n <= |lines| && lines[k].text.Content?
    ensures Texts(lines[..k]) + [lines[k].text.parsed] <= Texts(lines[..n])
  {
    TextsSnoc(lines, k);
    TextsGrow(lines[..n], k + 1);
    assert lines[..n][..k + 1] == lines[..k + 1];
  }

  lemma YieldedPrefix(items: seq<Item>, read: seq<Parsed>, t: Parsed, ts: seq<Parsed>, show: Json -> string)
    requires Yielded(items, read, show) && read + [t] <= ts
    ensures |items| < |ts| && ts[|items|] == t
    ensures forall i | 0 <= i < |items| :: Normalize(ts[i], i, show) == Ok(items[i])
  {
    assert (read + [t])[|items|] == t;
    assert forall i | 0 <= i < |items| :: ts[i] == (read + [t])[i] == read[i];
  }

  lemma StopsAtMalformed(items: seq<Item>, lines: seq<Line>, n: nat, k: nat, show: Json -> string)
    requires k < n <= |lines| && lines[k].text.Content?
    requires Yielded(items, Texts(lines[..k]), show) && Normalize(lines[k].text.parsed, |items|, show).Err?
    ensures IsIteration(items, Some(Malformed(Normalize(lines[k].text.parsed, |items|, show).problem)), lines, n, show)
  {
    ReadSoFar(lines, n, k);
    YieldedPrefix(items, Texts(lines[..k]), lines[k].text.parsed, Texts(lines[..n]), show);
  }

  lemma EndsReading(items: seq<Item>, lines: seq<Line>, n: nat, show: Json -> string)
    requires n <= |lines| && Yielded(items, Texts(lines[..n]), show)
    ensures IsIteration(items, if n < |lines| then Some(Undecodable) else None, lines, n, show)
  {
  }

  method IterItems(lines: seq<Line>, n: nat, show: Json -> string) returns (items: seq<Item>, stop: Option<Stop>)
    requires Readable(lines, n)
    ensures IsIteration(items, stop, lines, n, show)
  {
    items := [];
    var index := 0;
    var k := 0;
    while k < n
      invariant 0 <= k <= n && index == |items| && Yielded(items, Texts(lines[..k]), show)
    {
      var l := lines[k];
      TextsSnoc(lines, k);
      if l.text.Content? {
        var r := Normalize(l.text.parsed, index, show);
        if r.Err? {
          StopsAtMalformed(items, lines, n, k, show);
          return items, Some(Malformed(r.problem));
        }
        OneMoreItem(items, Texts(lines[..k]), l.text.parsed, show);
        items := items + [r.item];
        index := index + 1;
      }
      k := k + 1;
    }
    EndsReading(items, lines, n, show);
    stop := if n < |lines| then Some(Undecodable) else None;
  }

  /** Reading on only adds to what was read. */
  lemma {:induction false} TextsGrow(lines: seq<Line>, k: nat)
    requires k <= |lines|
    ensures Texts(lines[..k]) <= Texts(lines)
    decreases |lines|
  {
    if k < |lines| {
      assert lines[..|lines| - 1][..k] == lines[..k];
      TextsGrow(lines[..|lines| - 1], k);
    } else {
      assert lines[..k] == lines;
    }
  }

  datatype Complaint = AtLine(line: nat, problem: Problem) | TooMany(limit: nat) | EmptyFile

  datatype Validation = Validation(total: nat, errors: seq<Complaint>, preview: seq<Item>)

  const MAX_PREVIEW_ERRORS: nat := 20

  function Problems(ts: seq<Parsed>, show: Json -> string): seq<Complaint> {
    if ts == [] then [] else
      var n := |ts| - 1;
      var r := Normalize(ts[n], n, show);
      Problems(ts[..n], show) + (if r.Err? then [AtLine(n + 1, r.problem)] else [])
  }

  function Goods(ts: seq<Parsed>, show: Json -> string): seq<Item> {
    if ts == [] then [] else
      var n := |ts| - 1;
      var r := Normalize(ts[n], n, show);
      Goods(ts[..n], show) + (if r.Ok? then [r.item] else [])
  }

  function First<T>(n: nat, xs: seq<T>): seq<T> {
    if |xs| <= n then xs else xs[..n]
  }

  lemma FirstMeaning<T>(n: nat, xs: seq<T>)
    ensures First(n, xs) <= xs && |First(n, xs)| <= n && (|First(n, xs)| == n || First(n, xs) == xs)
  {
  }

  /** The report on a file whose counting lines are `ts`: one line past the limit is still looked
      at, and no more. */
  function Report(ts: seq<Parsed>, maxItems: nat, previewSize: nat, show: Json -> string): Validation {
    var seen := First(maxItems + 1, ts);
    Validation(
      |seen|,
      (if seen == [] then [EmptyFile] else []) + First(MAX_PREVIEW_ERRORS, Problems(seen, show))
      + (if |seen| > maxItems then [TooMany(maxItems)] else []),
      First(previewSize, Goods(seen, show)))
  }

  lemma OneMoreLine(ts: seq<Parsed>, t: Parsed, show: Json -> string)
    ensures var r := Normalize(t, |ts|, show);
            if r.Ok?
            then Problems(ts + [t], show) == Problems(ts, show) && Goods(ts + [t], show) == Goods(ts, show) + [r.item]
            else Problems(ts + [t], show) == Problems(ts, show) + [AtLine(|ts| + 1, r.problem)]
                 && Goods(ts + [t], show) == Goods(ts, show)
  {
    assert (ts + [t])[..|ts|] == ts;
  }

  /** One pass of the loop: the first few problems and the first few good items are kept. */
  method LookAt(t: Parsed, ghost seen: seq<Parsed>, total: nat, errors: seq<Complaint>, preview: seq<Item>,
                previewSize: nat, show: Json -> string)
    returns (moreErrors: seq<Complaint>, morePreview: seq<Item>)
    requires total == |seen|
    requires errors == First(MAX_PREVIEW_ERRORS, Problems(seen, show)) && preview == First(previewSize, Goods(seen, show))
    ensures moreErrors == First(MAX_PREVIEW_ERRORS, Problems(seen + [t], show))
    ensures morePreview == First(previewSize, Goods(seen + [t], show))
  {
    OneMoreLine(seen, t, show);
    moreErrors, morePreview := errors, preview;
    var r := Normalize(t, total, show);
    if r.Ok? {
      if |preview| < previewSize {
        morePreview := preview + [r.item];
      }
    } else if |errors| < MAX_PREVIEW_ERRORS {
      moreErrors := errors + [AtLine(total + 1, r.problem)];
    }
  }

  lemma TextsSnoc(lines: seq<Line>, k: nat)
    requires k < |lines|
    ensures Texts(lines[..k + 1]) ==
      if lines[k].text.Blank? then Texts(lines[..k]) else Texts(lines[..k]) + [lines[k].text.parsed]
  {
    assert lines[..k + 1][..k] == lines[..k];
  }

  /** Where the loop stops, the lines it has seen are the first ones the report looks at. */
  lemma SeenIsFirst(lines: seq<Line>, k: nat, maxItems: nat)
    requires k <= |lines| && |Texts(lines[..k])| <= maxItems + 1
    requires k == |lines| || |Texts(lines[..k])| == maxItems + 1
    ensures Texts(lines[..k]) == First(maxItems + 1, Texts(lines))
  {
    TextsGrow(lines, k);
    assert k == |lines| ==> lines[..k] == lines;
  }

  /** The loop of `validate_file`. */
  method Scan(lines: seq<Line>, maxItems: nat, previewSize: nat, show: Json -> string)
    returns (total: nat, errors: seq<Complaint>, preview: seq<Item>)
    ensures var seen := First(maxItems + 1, Texts(lines));
            && total == |seen| && errors == First(MAX_PREVIEW_ERRORS, Problems(seen, show))
            && preview == First(previewSize, Goods(seen, show))
  {
    total, errors, preview := 0, [], [];
    var k := 0;
    ghost var seen: seq<Parsed> := [];
    while k < |lines| && total <= maxItems
      invariant 0 <= k <= |lines| && seen == Texts(lines[..k]) && total == |seen| <= maxItems + 1
      invariant errors == First(MAX_PREVIEW_ERRORS, Problems(seen, show))
      invariant preview == First(previewSize, Goods(seen, show))
    {
      TextsSnoc(lines, k);
      var l := lines[k];
      k := k + 1;
      if l.text.Content? {
        errors, preview := LookAt(l.text.parsed, seen, total, errors, preview, previewSize, show);
        seen := seen + [l.text.parsed];
        total := total + 1;
      }
    }
    SeenIsFirst(lines, k, maxItems);
  }

  method ValidateFile(lines: seq<Line>, maxItems: nat, previewSize: nat, show: Json -> string)
    returns (v: Validation)
    ensures v == Report(Texts(lines), maxItems, previewSize, show)
  {
    var total, errors, preview := Scan(lines, maxItems, previewSize, show);
    ghost var kept := errors;
    if total > maxItems {
      errors := errors + [TooMany(maxItems)];
    }
    assert errors == kept + if total > maxItems then [TooMany(maxItems)] else [];
    if total == 0 {
      errors := [EmptyFile] + errors;
    }
    return Validation(total, errors, preview);
  }

  /** Every counting line is well formed. */
  predicate WellFormed(ts: seq<Parsed>, show: Json -> string) {
    forall i | 0 <= i < |ts| :: Normalize(ts[i], i, show).Ok?
  }

  lemma WellFormedSnoc(ts: seq<Parsed>, show: Json -> string)
    requires ts != []
    ensures var n := |ts| - 1;
            WellFormed(ts, show) <==> WellFormed(ts[..n], show) && Normalize(ts[n], n, show).Ok?
  {
  }

  lemma {:induction false} NoProblemsIff(ts: seq<Parsed>, show: Json -> string)
    ensures Problems(ts, show) == [] <==> WellFormed(ts, show)
    decreases |ts|
  {
    if ts != [] {
      NoProblemsIff(ts[..|ts| - 1], show);
      WellFormedSnoc(ts, show);
    }
  }

  /** A report without errors means: at least one item, not too many, and every one well formed. */
  lemma CleanReportIff(ts: seq<Parsed>, maxItems: nat, previewSize: nat, show: Json -> string)
    ensures Report(ts, maxItems, previewSize, show).errors == [] <==>
      0 < |ts| <= maxItems && WellFormed(ts, show)
  {
    NoProblemsIff(First(maxItems + 1, ts), show);
  }

  /** A complaint about line `i`, counted from zero, is true. */
  predicate Justified(p: Complaint, ts: seq<Parsed>, show: Json -> string) {
    p.AtLine? && 1 <= p.line <= |ts| && Normalize(ts[p.line - 1], p.line - 1, show) == Err(p.problem)
  }

  lemma {:induction false} ProblemsAreTrue(ts: seq<Parsed>, show: Json -> string)
    ensures forall p <- Problems(ts, show) :: Justified(p, ts, show)
    decreases |ts|
  {
    if ts != [] {
      var n := |ts| - 1;
      ProblemsAreTrue(ts[..n], show);
      forall p | p in Problems(ts[..n], show) ensures Justified(p, ts, show) {
        assert Justified(p, ts[..n], show);
      }
    }
  }

  lemma {:induction false} ProblemsAreAll(ts: seq<Parsed>, i: nat, show: Json -> string)
    requires i < |ts| && Normalize(ts[i], i, show).Err?
    ensures AtLine(i + 1, Normalize(ts[i], i, show).problem) in Problems(ts, show)
    decreases |ts|
  {
    if i < |ts| - 1 {
      ProblemsAreAll(ts[..|ts| - 1], i, show);
    }
  }

  lemma {:induction false} ProblemsInOrder(ts: seq<Parsed>, show: Json -> string)
    ensures forall a, b | 0 <= a < b < |Problems(ts, show)| ::
      Problems(ts, show)[a].AtLine? && Problems(ts, show)[b].AtLine?
      && Problems(ts, show)[a].line < Problems(ts, show)[b].line
    decreases |ts|
  {
    if ts != [] {
      var n := |ts| - 1;
      var front := Problems(ts[..n], show);
      ProblemsInOrder(ts[..n], show);
      ProblemsAreTrue(ts[..n], show);
      forall a | 0 <= a < |front| ensures front[a].AtLine? && front[a].line <= n {
        assert front[a] in front && Justified(front[a], ts[..n], show);
      }
    }
  }

  predicate IsItemOf(g: Item, ts: seq<Parsed>, show: Json -> string) {
    g.index < |ts| && Normalize(ts[g.index], g.index, show) == Ok(g)
  }

  /** The good lines come out as the items they are. */
  lemma {:induction false} GoodsMeaning(ts: seq<Parsed>, show: Json -> string)
    ensures forall g <- Goods(ts, show) :: IsItemOf(g, ts, show)
    decreases |ts|
  {
    if ts != [] {
      var n := |ts| - 1;
      GoodsMeaning(ts[..n], show);
      forall g | g in Goods(ts, show) ensures IsItemOf(g, ts, show) {
        if g in Goods(ts[..n], show) {
          assert IsItemOf(g, ts[..n], show);
        } else {
          NormalizedIsRequest(ts[n], n, show);
        }
      }
    }
  }

  /** And every line is either good or complained about. */
  lemma {:induction false} GoodOrComplained(ts: seq<Parsed>, show: Json -> string)
    ensures |Goods(ts, show)| + |Problems(ts, show)| == |ts|
    decreases |ts|
  {
    if ts != [] {
      GoodOrComplained(ts[..|ts| - 1], show);
    }
  }

  /** What the report says, in plain terms: how many lines it looked at; the first twenty complaints about
      them, in order; before these that the file is empty, or after them that it is too long. */
  lemma ReportMeaning(ts: seq<Parsed>, maxItems: nat, previewSize: nat, show: Json -> string)
    ensures var v := Report(ts, maxItems, previewSize, show);
            var kept := First(20, Problems(if |ts| <= maxItems then ts else ts[..maxItems + 1], show));
            && v.total == (if |ts| <= maxItems then |ts| else maxItems + 1)
            && |kept| <= 20 && |v.preview| <= previewSize
            && v.errors == if ts == [] then [EmptyFile] else if |ts| <= maxItems then kept else kept + [TooMany(maxItems)]
  {
    var seen := First(maxItems + 1, ts);
    assert seen == if |ts| <= maxItems then ts else ts[..maxItems + 1];
    FirstMeaning(previewSize, Goods(seen, show));
    if ts == [] {
      assert Problems(seen, show) == [];
    }
  }

  /** Main result: on a file that passed validation, the run's own reading yields exactly the items
      0 .. total - 1 in order and ends without an exception, if and only if the file is all UTF-8;
      validation replaces undecodable bytes, the run stops at them. */
  lemma ValidatedFileIterates(lines: seq<Line>, maxItems: nat, previewSize: nat, show: Json -> string,
                              n: nat, items: seq<Item>, stop: Option<Stop>)
    requires Report(Texts(lines), maxItems, previewSize, show).errors == []
    requires Readable(lines, n) && IsIteration(items, stop, lines, n, show)
    ensures stop.None? <==> AllUtf8(lines)
    ensures stop.None? ==> |items| == Report(Texts(lines), maxItems, previewSize, show).total <= maxItems
    ensures stop.Some? ==> stop.value.Undecodable?
    ensures forall i | 0 <= i < |items| :: items[i].index == i && IsRequest(items[i].body)
  {
    CleanReportIff(Texts(lines), maxItems, previewSize, show);
    TextsGrow(lines, n);
    assert n == |lines| ==> lines[..n] == lines;
    var ts := Texts(lines[..n]);
    assert forall i | 0 <= i < |ts| :: ts[i] == Texts(lines)[i];
    forall i | 0 <= i < |items| ensures items[i].index == i && IsRequest(items[i].body) {
      NormalizedIsRequest(ts[i], i, show);
    }
  }

  /** A line that is a request, whatever `show` is. */
  function PromptLine(): Parsed {
    Value(Obj(map["prompt" := Str("hello")]))
  }

  lemma PromptLineIsAccepted(show: Json -> string)
    ensures Normalize(PromptLine(), 0, show).Ok?
  {
    AcceptedExactly(PromptLine().json.fields, 0, show);
  }

  /** Such files exist: one good line with undecodable bytes passes validation, and the run stops there
      without a single item. */
  lemma ValidatedFileCanStop(p: Parsed, show: Json -> string, maxItems: nat, previewSize: nat)
    requires maxItems > 0 && Normalize(p, 0, show).Ok?
    ensures var lines := [Line(false, Content(p))];
            && Report(Texts(lines), maxItems, previewSize, show).errors == []
            && Readable(lines, 0) && IsIteration([], Some(Undecodable), lines, 0, show)
    ensures Normalize(PromptLine(), 0, show).Ok?
  {
    var lines := [Line(false, Content(p))];
    assert lines[..0] == [] && lines[0] in lines;
    assert Texts(lines) == [p];
    CleanReportIff([p], maxItems, previewSize, show);
    PromptLineIsAccepted(show);
  }

  // ------------------------------------------------------------------ duplicate ids

  /** The ids that occurred before, in order. */
  function Repeats(ids: seq<string>): seq<string> {
    if ids == [] then [] else
      var n := |ids| - 1;
      Repeats(ids[..n]) + (if ids[n] in ids[..n] then [ids[n]] else [])
  }

  /** `count_duplicate_custom_ids`, on the ids of an error-free iteration. */
  method DuplicateIds(ids: seq<string>, limit: nat) returns (dupes: seq<string>)
    ensures dupes == First(limit, Repeats(ids))
  {
    var seen: set<string> := {};
    dupes := [];
    for k := 0 to |ids|
      invariant seen == set id | id in ids[..k]
      invariant dupes == First(limit, Repeats(ids[..k]))
    {
      assert ids[..k + 1][..k] == ids[..k];
      if ids[k] in seen {
        if |dupes| < limit {
          dupes := dupes + [ids[k]];
        }
      } else {
        seen := seen + {ids[k]};
      }
    }
    assert ids[..|ids|] == ids;
  }

  /** As many repeats as there are ids too many. */
  lemma {:induction false} RepeatsCount(ids: seq<string>)
    ensures |Repeats(ids)| + |set id | id in ids| == |ids|
    ensures forall id <- Repeats(ids) :: multiset(ids)[id] >= 2
    decreases |ids|
  {
    if ids != [] {
      var n := |ids| - 1;
      var front := ids[..n];
      RepeatsCount(front);
      assert ids == front + [ids[n]];
      var before, after := set id | id in front, set id | id in ids;
      if ids[n] in front {
        assert after == before;
        assert multiset(front)[ids[n]] >= 1;
      } else {
        assert after == before + {ids[n]};
      }
    }
  }

  lemma {:induction false} NoRepeatsIff(ids: seq<string>)
    ensures Repeats(ids) == [] <==> forall i, j | 0 <= i < j < |ids| :: ids[i] != ids[j]
    decreases |ids|
  {
    if ids != [] {
      var n := |ids| - 1;
      NoRepeatsIff(ids[..n]);
      assert forall i | 0 <= i < n :: ids[..n][i] == ids[i];
    }
  }
}
