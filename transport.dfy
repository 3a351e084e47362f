/**
 * The transport layer: `API.request` and the verbs built on it.
 *
 * The HTTP exchange itself is an oracle: each call receives a `Reply`, either
 * an exception raised by `requests` or a status with a body that may or may
 * not decode as JSON. What the client does with the reply is modelled
 * exactly: a status below 400 hands the decoded body back; anything else ends
 * the process with exit status 1, after printing the error lines the body
 * yields. Python exceptions the code does not catch (a `KeyError` on a body
 * without `detail`, a `TypeError` on an ill-shaped `detail` element) also end
 * the process with status 1; they are kept apart as `Crashed`.
 */
module Transport {
  import opened Wrappers
  import opened Json
  import opened Text

  datatype Verb = GET | POST | PUT | DELETE

  /** The body of a request: none, a JSON object, or the raw bytes of a file (named by its path). */
  datatype Body = NoBody | JsonBody(fields: map<string, Value>) | Upload(file: string)

  /** One logical call, with its path relative to the API base URL. */
  datatype Call = Call(verb: Verb, path: string, body: Body)

  /** What the handler reads from a successful reply before it carries on. */
  datatype Check =
    | Ignore                 // the reply is not looked at
    | NeedsObject            // `result.items()` / `result.get(..)`: the reply must be an object
    | NeedsKey(key: string)  // `result[key]`: the reply must be an object holding `key`
    | NeedsContainer         // `'detail' in result`, then `result['detail']` when it holds

  datatype Step = Step(call: Call, after: Check)

  /** The oracle's answer to one request. `body` is `None` when it is not valid JSON. */
  datatype Reply = Raised(exception: string) | Response(status: int, body: Option<Value>)

  /** A line printed on the way out. */
  datatype Line =
    | ExceptionLine(kind: string)              // `Exception: <kind>`
    | FieldLine(field: Value, message: Value)  // `<loc[1]>: <msg>`
    | MessageLine(detail: Value)               // `<detail>`

  datatype Outcome =
    | Returned(body: Value)       // `request` returns the decoded body
    | Exited(lines: seq<Line>)    // `sys.exit(1)` after printing `lines`
    | Crashed(lines: seq<Line>)   // an uncaught exception after printing `lines`; exit status 1

  /** `e['loc'][1]`: the second element of a list, or the second character of a string. */
  function Second(loc: Value): Option<Value>
  {
    match loc
    case JArr(xs) => if |xs| >= 2 then Some(xs[1]) else None
    case JStr(s) => if |s| >= 2 then Some(JStr([s[1]])) else None
    case _ => None
  }

  /** The line printed for one element of a `detail` list, or `None` where Python raises. */
  function ItemLine(e: Value): Option<Line>
  {
    match e
    case JObj(m) =>
      if "loc" in m && "msg" in m && Second(m["loc"]).Some? then
        Some(FieldLine(Second(m["loc"]).value, m["msg"]))
      else None
    case _ => None
  }

  /** The lines printed while looping over `detail`, and whether the loop ran to its end. */
  datatype Printed = Printed(lines: seq<Line>, complete: bool)

  function DetailLines(items: seq<Value>): (p: Printed)
    ensures |p.lines| <= |items|
    ensures forall i :: 0 <= i < |p.lines| ==> ItemLine(items[i]) == Some(p.lines[i])
    ensures p.complete <==> |p.lines| == |items|
    ensures !p.complete ==> ItemLine(items[|p.lines|]).None?
  {
    if items == [] then Printed([], true)
    else
      match ItemLine(items[0])
      case None => Printed([], false)
      case Some(line) =>
        var rest := DetailLines(items[1..]);
        Printed([line] + rest.lines, rest.complete)
  }

  /** The contract of `DetailLines` determines its result. */
  lemma DetailLinesUnique(items: seq<Value>, lines: seq<Line>, complete: bool)
    requires |lines| <= |items|
    requires forall j :: 0 <= j < |lines| ==> ItemLine(items[j]) == Some(lines[j])
    requires complete <==> |lines| == |items|
    requires !complete ==> ItemLine(items[|lines|]).None?
    ensures Printed(lines, complete) == DetailLines(items)
  {
    var d := DetailLines(items);
    assert |d.lines| == |lines|;
    assert lines == d.lines;
  }

  /** How `API.request` treats a reply. */
  function Classify(reply: Reply): Outcome
  {
    match reply
    case Raised(kind) => Exited([ExceptionLine(kind)])
    case Response(status, body) =>
      if body.None? then Crashed([])
      else if status < 400 then Returned(body.value)
      else
        match body.value
        case JObj(m) =>
          if "detail" !in m then Crashed([])
          else if !Truthy(m["detail"]) then Exited([])
          else if |m| > 1 then
            match m["detail"]
            case JArr(items) =>
              var p := DetailLines(items);
              if p.complete then Exited(p.lines) else Crashed(p.lines)
            case _ => Crashed([])
          else Exited([MessageLine(m["detail"])])
        case _ => Crashed([])
  }

  /** The body comes back exactly when the status is below 400 and the body decodes. */
  lemma ReturnsIffSuccess(reply: Reply)
    ensures Classify(reply).Returned?
        <==> reply.Response? && reply.status < 400 && reply.body.Some?
    ensures Classify(reply).Returned? ==> Classify(reply).body == reply.body.value
  {
  }

  /** An exception from `requests` prints its type name and exits; no reply is read. */
  lemma RaisedExits(kind: string)
    ensures Classify(Raised(kind)).Exited?
    ensures Classify(Raised(kind)).lines == [ExceptionLine(kind)]
  {
  }

  /** A body that does not decode raises in `r.json()`, whatever the status. */
  lemma UndecodableCrashes(status: int)
    ensures Classify(Response(status, None)) == Crashed([])
  {
  }

  /**
   * An error body crashes exactly when it is not an object, has no `detail`,
   * or has a truthy `detail` beside other keys that is not a list of
   * well-formed items; the lines printed before a bad item stay printed.
   */
  lemma ErrorBodyCrashes(status: int, body: Value)
    requires status >= 400
    ensures Classify(Response(status, Some(body))).Crashed?
        <==> !body.JObj? || "detail" !in body.fields
             || (Truthy(body.fields["detail"]) && |body.fields| > 1
                 && (!body.fields["detail"].JArr? || !DetailLines(body.fields["detail"].items).complete))
    ensures body.JObj? && "detail" in body.fields && |body.fields| > 1 && body.fields["detail"].JArr?
            && Truthy(body.fields["detail"])
        ==> Classify(Response(status, Some(body))).lines == DetailLines(body.fields["detail"].items).lines
  {
  }

  /** A status of 400 or above never hands a body back: the process ends, whatever the body holds. */
  lemma ErrorStatusExits(reply: Reply)
    requires reply.Response? && reply.status >= 400
    ensures !Classify(reply).Returned?
  {
  }

  /**
   * An error body with more than one key and a list of well-formed `detail`
   * items prints one `loc[1]: msg` line per item, in order, then exits.
   */
  lemma PerItemLines(status: int, m: map<string, Value>, items: seq<Value>)
    requires status >= 400 && |m| > 1
    requires "detail" in m && m["detail"] == JArr(items) && items != []
    requires forall i :: 0 <= i < |items| ==> ItemLine(items[i]).Some?
    ensures Classify(Response(status, Some(JObj(m)))).Exited?
    ensures |Classify(Response(status, Some(JObj(m)))).lines| == |items|
    ensures forall i :: 0 <= i < |items| ==>
              Some(Classify(Response(status, Some(JObj(m)))).lines[i]) == ItemLine(items[i])
  {
  }

  /** An error body whose only key is a truthy `detail` prints that one value, then exits. */
  lemma SingleMessage(status: int, detail: Value)
    requires status >= 400 && Truthy(detail)
    ensures Classify(Response(status, Some(JObj(map["detail" := detail])))) == Exited([MessageLine(detail)])
  {
    assert |map["detail" := detail]| == 1;
  }

  /** A falsy `detail` prints nothing; the process still exits. */
  lemma FalsyDetailSilent(status: int, m: map<string, Value>)
    requires status >= 400 && "detail" in m && !Truthy(m["detail"])
    ensures Classify(Response(status, Some(JObj(m)))) == Exited([])
  {
  }

  /** What actually goes over the wire for a call. */
  datatype Wire = Wire(verb: Verb, url: string, authorization: string, body: Body)

  function WireOf(apiUrl: string, authorization: string, c: Call): Wire
  {
    Wire(c.verb, apiUrl + "/" + c.path, authorization, c.body)
  }

  /** A successful reply that also survives what the handler reads from it. */
  predicate Passes(check: Check, body: Value)
  {
    match check
    case Ignore => true
    case NeedsObject => body.JObj?
    case NeedsKey(k) => body.JObj? && k in body.fields
    case NeedsContainer =>
      || body.JObj?
      || (body.JArr? && JStr("detail") !in body.items)
      || (body.JStr? && !IsSubstring("detail", body.s))
  }

  predicate Accepted(step: Step, reply: Reply)
  {
    Classify(reply).Returned? && Passes(step.after, Classify(reply).body)
  }

  datatype Final = Completed | Terminated(outcome: Outcome)

  /** The requests actually sent, in order, and how the invocation ended. */
  datatype Trace = Trace(issued: seq<Wire>, final: Final)

  /**
   * Running a plan of steps, one reply per request: calls are made strictly in
   * order and the first reply that ends the process stops the run.
   */
  function Run(apiUrl: string, authorization: string, steps: seq<Step>, replies: seq<Reply>): Trace
    requires |replies| >= |steps|
  {
    if steps == [] then Trace([], Completed)
    else
      var w := WireOf(apiUrl, authorization, steps[0].call);
      match Classify(replies[0])
      case Returned(body) =>
        if Passes(steps[0].after, body) then
          var t := Run(apiUrl, authorization, steps[1..], replies[1..]);
          Trace([w] + t.issued, t.final)
        else Trace([w], Terminated(Crashed([])))
      case Exited(lines) => Trace([w], Terminated(Exited(lines)))
      case Crashed(lines) => Trace([w], Terminated(Crashed(lines)))
  }

  /**
   * What a run sends: a prefix of the plan, each call as planned. It completes
   * exactly when every reply is accepted; otherwise the last call sent is the
   * first one whose reply ends the process.
   */
  lemma {:induction false} RunShape(apiUrl: string, authorization: string, steps: seq<Step>, replies: seq<Reply>)
    requires |replies| >= |steps|
    ensures var t := Run(apiUrl, authorization, steps, replies);
      && |t.issued| <= |steps|
      && (forall i :: 0 <= i < |t.issued| ==> t.issued[i] == WireOf(apiUrl, authorization, steps[i].call))
      && (t.final.Completed? <==> |t.issued| == |steps| && forall i :: 0 <= i < |steps| ==> Accepted(steps[i], replies[i]))
      && (t.final.Terminated? ==>
            |t.issued| > 0 && !t.final.outcome.Returned?
            && (forall i :: 0 <= i < |t.issued| - 1 ==> Accepted(steps[i], replies[i]))
            && !Accepted(steps[|t.issued| - 1], replies[|t.issued| - 1]))
  {
    if steps != [] {
      RunShape(apiUrl, authorization, steps[1..], replies[1..]);
      var t := Run(apiUrl, authorization, steps[1..], replies[1..]);
      if Accepted(steps[0], replies[0]) {
        assert forall i :: 1 <= i < |steps| ==> steps[i] == steps[1..][i - 1] && replies[i] == replies[1..][i - 1];
      }
    }
  }

  /** When every reply is accepted, every planned call is sent, in order. */
  lemma RunCompletes(apiUrl: string, authorization: string, steps: seq<Step>, replies: seq<Reply>)
    requires |replies| >= |steps|
    requires forall i :: 0 <= i < |steps| ==> Accepted(steps[i], replies[i])
    ensures Run(apiUrl, authorization, steps, replies)
         == Trace(seq(|steps|, i requires 0 <= i < |steps| => WireOf(apiUrl, authorization, steps[i].call)), Completed)
  {
    RunShape(apiUrl, authorization, steps, replies);
  }

  /** The first reply that is not accepted is the last call sent. */
  lemma RunStopsAt(apiUrl: string, authorization: string, steps: seq<Step>, replies: seq<Reply>, k: nat)
    requires |replies| >= |steps| && k < |steps|
    requires forall i :: 0 <= i < k ==> Accepted(steps[i], replies[i])
    requires !Accepted(steps[k], replies[k])
    ensures |Run(apiUrl, authorization, steps, replies).issued| == k + 1
    ensures Run(apiUrl, authorization, steps, replies).final.Terminated?
  {
    RunShape(apiUrl, authorization, steps, replies);
  }

  /**
   * `print_result_details` asks `'detail' in result` and then reads
   * `result['detail']`: a successful reply that is a list holding the string
   * `detail`, or a string containing it, raises `TypeError`, so the run stops
   * right after that call.
   */
  lemma DetailInListOrTextStops(apiUrl: string, authorization: string, steps: seq<Step>, replies: seq<Reply>,
                                status: int, body: Value, a: string, b: string)
    requires |steps| >= 1 && |replies| >= |steps| && steps[0].after == NeedsContainer
    requires status < 400 && replies[0] == Response(status, Some(body))
    requires (body.JArr? && JStr("detail") in body.items) || body == JStr(a + "detail" + b)
    ensures Run(apiUrl, authorization, steps, replies)
         == Trace([WireOf(apiUrl, authorization, steps[0].call)], Terminated(Crashed([])))
  {
    if body.JStr? {
      IsSubstringAt(a, "detail", b);
    }
  }

  /** The client object: base URL and bearer header fixed at construction. */
  class Api {
    const apiUrl: string
    const authorization: string

    constructor (apiUrl: string, apiKey: string)
      ensures this.apiUrl == apiUrl
      ensures authorization == "Bearer " + apiKey
    {
      this.apiUrl := apiUrl;
      this.authorization := "Bearer " + apiKey;
    }

    /**
     * `API.request`: sends one request to `apiUrl/path` and classifies the
     * reply, printing the error lines of a failed one.
     */
    method Request(call: Call, reply: Reply) returns (wire: Wire, outcome: Outcome)
      ensures wire.url == apiUrl + "/" + call.path
      ensures wire == WireOf(apiUrl, authorization, call)
      ensures outcome == Classify(reply)
    {
      wire := Wire(call.verb, apiUrl + "/" + call.path, authorization, call.body);
      match reply
      case Raised(kind) =>
        outcome := Exited([ExceptionLine(kind)]);
        return;
      case Response(status, body) =>
        if body.None? {
          outcome := Crashed([]);
          return;
        }
        if status >= 400 {
          if !body.value.JObj? || "detail" !in body.value.fields {
            outcome := Crashed([]);
            return;
          }
          var m := body.value.fields;
          var lines: seq<Line> := [];
          if Truthy(m["detail"]) {
            if |m| > 1 {
              if !m["detail"].JArr? {
                outcome := Crashed([]);
                return;
              }
              var complete;
              lines, complete := PrintDetail(m["detail"].items);
              if !complete {
                outcome := Crashed(lines);
                return;
              }
            } else {
              lines := [MessageLine(m["detail"])];
            }
          }
          outcome := Exited(lines);
          return;
        }
        outcome := Returned(body.value);
    }

    /** The loop over `detail`: prints one line per item until an item Python cannot format. */
    method PrintDetail(items: seq<Value>) returns (lines: seq<Line>, complete: bool)
      ensures Printed(lines, complete) == DetailLines(items)
    {
      lines := [];
      var i := 0;
      while i < |items|
        invariant 0 <= i <= |items| && |lines| == i
        invariant forall j :: 0 <= j < i ==> ItemLine(items[j]) == Some(lines[j])
      {
        var line := ItemLine(items[i]);
        if line.None? {
          DetailLinesUnique(items, lines, false);
          return lines, false;
        }
        lines := lines + [line.value];
        i := i + 1;
      }
      DetailLinesUnique(items, lines, true);
      return lines, true;
    }

    /** Sends the steps of a command one after the other, stopping at the first fatal reply. */
    method Execute(steps: seq<Step>, replies: seq<Reply>) returns (trace: Trace)
      requires |replies| >= |steps|
      ensures trace == Run(apiUrl, authorization, steps, replies)
    {
      var issued: seq<Wire> := [];
      var i := 0;
      while i < |steps|
        invariant 0 <= i <= |steps|
        invariant Run(apiUrl, authorization, steps, replies)
               == Trace(issued + Run(apiUrl, authorization, steps[i..], replies[i..]).issued,
                        Run(apiUrl, authorization, steps[i..], replies[i..]).final)
      {
        assert steps[i..][1..] == steps[i + 1..];
        assert replies[i..][1..] == replies[i + 1..];
        var wire, outcome := Request(steps[i].call, replies[i]);
        issued := issued + [wire];
        if !outcome.Returned? {
          return Trace(issued, Terminated(outcome));
        }
        if !Passes(steps[i].after, outcome.body) {
          return Trace(issued, Terminated(Crashed([])));
        }
        i := i + 1;
      }
      assert steps[i..] == [];
      return Trace(issued, Completed);
    }
  }
}
