/** The HTTP client as the extractors see it: every request takes the next scripted outcome, and
  * every request and every sleep of whole seconds is recorded, so a model run can be read off the
  * log. The marketplace extractor's sub-second pauses are not recorded. */
module Net {
  import opened Values

  /** What one request produced: an exception (connection error, timeout, unreadable body) or a
    * response with a status code and its parsed JSON body. */
  datatype Outcome = Raised | Response(status: int, body: Value)

  /** A request: method, URL, query parameters or JSON body in insertion order, bearer token. */
  datatype Request = Request(verb: string, url: string, params: seq<(string, Value)>, token: Value)

  datatype Event = Sent(request: Request) | Slept(seconds: int)

  /** The outcome the next request receives; an exhausted script answers with a connection error. */
  function Next(pending: seq<Outcome>): Outcome
  {
    if |pending| == 0 then Raised else pending[0]
  }

  function Rest(pending: seq<Outcome>): (r: seq<Outcome>)
    ensures |pending| > 0 ==> |r| == |pending| - 1
    ensures |pending| == 0 ==> r == []
  {
    if |pending| == 0 then [] else pending[1..]
  }

  /** `b` ends with `a`. */
  ghost predicate Suffix<T>(a: seq<T>, b: seq<T>)
  {
    |a| <= |b| && b[|b| - |a|..] == a
  }

  lemma SuffixTrans<T>(a: seq<T>, b: seq<T>, c: seq<T>)
    requires Suffix(a, b) && Suffix(b, c)
    ensures Suffix(a, c)
  {
    assert c[|c| - |a|..] == c[|c| - |b|..][|b| - |a|..];
  }

  lemma SuffixRest(p: seq<Outcome>)
    ensures Suffix(Rest(p), p)
  {
  }

  lemma SuffixMember<T>(x: T, a: seq<T>, b: seq<T>)
    requires Suffix(a, b) && x in a
    ensures x in b
  {
    var i :| 0 <= i < |a| && a[i] == x;
    assert b[|b| - |a| + i] == x;
  }

  /** The number of requests with the given method in a log. */
  function CountSent(log: seq<Event>, verb: string): nat
  {
    if |log| == 0 then 0
    else
      var last := log[|log| - 1];
      CountSent(log[..|log| - 1], verb) + (if last.Sent? && last.request.verb == verb then 1 else 0)
  }

  lemma {:induction false} CountSentAppend(a: seq<Event>, b: seq<Event>, verb: string)
    ensures CountSent(a + b, verb) == CountSent(a, verb) + CountSent(b, verb)
  {
    if |b| > 0 {
      assert (a + b)[..|a + b| - 1] == a + b[..|b| - 1];
      CountSentAppend(a, b[..|b| - 1], verb);
    } else {
      assert a + b == a;
    }
  }

  class Network {
    var pending: seq<Outcome>
    var log: seq<Event>

    constructor (script: seq<Outcome>)
      ensures pending == script && log == []
    {
      pending := script;
      log := [];
    }

    /** Send a request and receive its outcome. */
    method Send(request: Request) returns (o: Outcome)
      modifies this
      ensures o == Next(old(pending)) && pending == Rest(old(pending))
      ensures log == old(log) + [Sent(request)]
    {
      o := Next(pending);
      pending := Rest(pending);
      log := log + [Sent(request)];
    }

    /** `time.sleep(seconds)` */
    method Sleep(seconds: int)
      modifies this
      ensures pending == old(pending) && log == old(log) + [Slept(seconds)]
    {
      log := log + [Slept(seconds)];
    }
  }
}
