/**
 * `hdfsConsumer`: the consumer's polling loop. It asks the discovery collaborator
 * (`nextFile`) for the next file of its topic, opens a finalized file at offset 0,
 * surfaces a discovery error through its `err` field, and otherwise sleeps and
 * polls again. The collaborators `nextFile` and `fetchNextLow` are scripts: the
 * answers they will give, in order.
 */
module Consumer {
  import opened Errors
  import opened Strings

  /** Name suffix of a file its producer is still writing. */
  const OpenSuffix: string := ".open"

  /** Pause between two discovery polls, in milliseconds. */
  const BackoffMs: nat := 200

  /** One answer of `nextFile(topic, name)`: a candidate name (possibly empty) or an error. */
  datatype Discovery = Next(name: string) | Failed(error: Error)

  /** A candidate the loop opens: non-empty and not marked in progress. */
  predicate Openable(name: string): (b: bool)
    ensures b ==> |name| > 0
    ensures forall base :: base + OpenSuffix == name ==> !b
  {
    name != "" && !HasSuffix(name, OpenSuffix)
  }

  /** An answer after which the loop sleeps and polls again. */
  predicate Waiting(d: Discovery) {
    d.Next? && !Openable(d.name)
  }

  /** A call `openFile(file, offset)`. */
  datatype Opening = Opening(file: string, offset: int)

  /**
   * How a run of the polling loop over a script of answers ends: on the
   * `used`-th answer, with an error or with a file to open, or not at all
   * within the script.
   */
  datatype PollResult = PollError(error: Error, used: nat) | PollOpen(file: string, used: nat) | PollExhausted

  function Later(p: PollResult): PollResult {
    match p
    case PollError(e, n) => PollError(e, n + 1)
    case PollOpen(f, n) => PollOpen(f, n + 1)
    case PollExhausted => PollExhausted
  }

  /** The polling loop of `waitAndOpenNextFile` over the answers `answers`. */
  function Poll(answers: seq<Discovery>): (r: PollResult)
    ensures match r
      case PollError(e, n) =>
        0 < n <= |answers| && answers[n - 1] == Failed(e) &&
        forall k :: 0 <= k < n - 1 ==> Waiting(answers[k])
      case PollOpen(f, n) =>
        0 < n <= |answers| && answers[n - 1] == Next(f) && Openable(f) &&
        forall k :: 0 <= k < n - 1 ==> Waiting(answers[k])
      case PollExhausted =>
        forall k :: 0 <= k < |answers| ==> Waiting(answers[k])
    decreases |answers|
  {
    if answers == [] then PollExhausted
    else match answers[0]
      case Failed(e) => PollError(e, 1)
      case Next(f) => if Openable(f) then PollOpen(f, 1) else Later(Poll(answers[1..]))
  }

  /**
   * The consumer's cursor as the loops see it: the current file name, the error
   * slot, the files opened so far, the time slept, and what `fetchNextLow` and
   * `nextFile` will answer from now on.
   */
  datatype Cursor = Cursor(
    name: string,
    err: Option<Error>,
    openings: seq<Opening>,
    sleptMs: nat,
    low: seq<bool>,
    discovery: seq<Discovery>)

  /** Every file opened so far was finalized and opened from its start. */
  predicate OpenedFinalized(c: Cursor) {
    forall i :: 0 <= i < |c.openings| ==> Openable(c.openings[i].file) && c.openings[i].offset == 0
  }

  /** What a loop returned (`None`: a script ran out while the loop would go on) and the cursor after it. */
  datatype Step = Step(ret: Option<bool>, after: Cursor)

  /** `waitAndOpenNextFile` from cursor `c`. */
  function Wait(c: Cursor): (s: Step)
    ensures s.ret != Some(false)
    ensures s.ret == None <==> forall k :: 0 <= k < |c.discovery| ==> Waiting(c.discovery[k])
    ensures s.after.low == c.low
    ensures |s.after.discovery| < |c.discovery| || c.discovery == []
    ensures OpenedFinalized(c) ==> OpenedFinalized(s.after)
    ensures s.after.openings == c.openings ||
      (|s.after.openings| == |c.openings| + 1 && s.after.openings[..|c.openings|] == c.openings &&
       Next(s.after.openings[|c.openings|].file) in c.discovery)
    ensures s.after.err == c.err || (s.after.err.Some? && Failed(s.after.err.value) in c.discovery)
    ensures Poll(c.discovery).PollError? ==>
      s.ret == Some(true) && s.after.err == Some(Poll(c.discovery).error) && s.after.openings == c.openings
    ensures Poll(c.discovery).PollOpen? ==>
      s.ret == Some(true) && s.after.err == c.err &&
      s.after.openings == c.openings + [Opening(Poll(c.discovery).file, 0)]
  {
    match Poll(c.discovery)
    case PollError(e, n) =>
      Step(Some(true), c.(err := Some(e), discovery := c.discovery[n..], sleptMs := c.sleptMs + BackoffMs * (n - 1)))
    case PollOpen(f, n) =>
      Step(Some(true), c.(name := f, openings := c.openings + [Opening(f, 0)], discovery := c.discovery[n..],
                          sleptMs := c.sleptMs + BackoffMs * (n - 1)))
    case PollExhausted =>
      Step(None, c.(discovery := [], sleptMs := c.sleptMs + BackoffMs * |c.discovery|))
  }

  /** `FetchNext` from cursor `c`. */
  function Fetch(c: Cursor): (s: Step)
    ensures |s.after.low| <= |c.low| && s.after.low == c.low[|c.low| - |s.after.low|..]
    decreases |c.low|
  {
    if c.low == [] then Step(None, c)
    else if c.low[0] then Step(Some(true), c.(low := c.low[1..]))
    else
      var w := Wait(c.(low := c.low[1..]));
      if w.ret == None then Step(None, w.after)
      else if w.ret == Some(false) then Step(Some(false), w.after)
      else if w.after.err.Some? then Step(Some(true), w.after)
      else Fetch(w.after)
  }

  /** An answer whose name carries the in-progress suffix is never opened: the loop waits on it. */
  lemma InProgressWaits(base: string)
    ensures Waiting(Next(base + OpenSuffix))
  {
  }

  /**
   * Polling over answers that are empty or in progress and then a finalized name
   * opens that name, after one backoff per earlier answer.
   */
  lemma {:induction false} WaitsUntilFinalized(pending: seq<Discovery>, f: string, rest: seq<Discovery>)
    requires forall k :: 0 <= k < |pending| ==> Waiting(pending[k])
    requires Openable(f)
    ensures Poll(pending + [Next(f)] + rest) == PollOpen(f, |pending| + 1)
    decreases |pending|
  {
    var answers := pending + [Next(f)] + rest;
    if pending == [] {
      assert answers[0] == Next(f);
    } else {
      assert answers[1..] == pending[1..] + [Next(f)] + rest;
      WaitsUntilFinalized(pending[1..], f, rest);
    }
  }

  /** A waiting answer at the head of the script costs one backoff and changes nothing else. */
  lemma WaitSkip(c: Cursor)
    requires c.discovery != [] && Waiting(c.discovery[0])
    ensures Wait(c) == Wait(c.(discovery := c.discovery[1..], sleptMs := c.sleptMs + BackoffMs))
  {
  }

  /** `FetchNext` never returns false: its `return false` cannot be reached. */
  lemma {:induction false} FetchNeverFalse(c: Cursor)
    ensures Fetch(c).ret != Some(false)
    decreases |c.low|
  {
    if c.low != [] && !c.low[0] {
      var w := Wait(c.(low := c.low[1..]));
      if w.ret == Some(true) && w.after.err.None? {
        FetchNeverFalse(w.after);
      }
    }
  }

  /**
   * A true result means a message or an error is available: either the last
   * `fetchNextLow` answer consumed was true, or the error slot is set.
   */
  lemma {:induction false} FetchTrueMeansMessageOrError(c: Cursor)
    ensures var s := Fetch(c);
      s.ret == Some(true) ==>
        s.after.err.Some? ||
        (|s.after.low| < |c.low| && c.low[|c.low| - |s.after.low| - 1])
    decreases |c.low|
  {
    if c.low != [] && !c.low[0] {
      var w := Wait(c.(low := c.low[1..]));
      assert w.after.low == c.low[1..];
      if w.ret == Some(true) && w.after.err.None? {
        assert Fetch(c) == Fetch(w.after);
        FetchTrueMeansMessageOrError(w.after);
        var s := Fetch(w.after);
        if s.ret == Some(true) && s.after.err.None? {
          var m := |w.after.low| - |s.after.low| - 1;
          assert c.low[1..][m] == c.low[m + 1];
        }
      }
    }
  }

  /** The model stops without an answer only when one of the two scripts has run out. */
  lemma {:induction false} FetchStopsOnlyAtScriptEnd(c: Cursor)
    ensures var s := Fetch(c);
      s.ret == None ==> s.after.low == [] || s.after.discovery == []
    decreases |c.low|
  {
    if c.low != [] && !c.low[0] {
      var w := Wait(c.(low := c.low[1..]));
      if w.ret == Some(true) && w.after.err.None? {
        FetchStopsOnlyAtScriptEnd(w.after);
      }
    }
  }

  /**
   * `FetchNext` only ever opens finalized files at offset 0, and only adds to
   * the files opened before.
   */
  lemma {:induction false} FetchOpensOnlyFinalized(c: Cursor)
    requires OpenedFinalized(c)
    ensures OpenedFinalized(Fetch(c).after)
    ensures |c.openings| <= |Fetch(c).after.openings| && Fetch(c).after.openings[..|c.openings|] == c.openings
    decreases |c.low|
  {
    if c.low != [] && !c.low[0] {
      var w := Wait(c.(low := c.low[1..]));
      if w.ret == Some(true) && w.after.err.None? {
        FetchOpensOnlyFinalized(w.after);
        var o := Fetch(w.after).after.openings;
        assert o[..|c.openings|] == o[..|w.after.openings|][..|c.openings|];
      }
    }
  }

  /** A discovery error after an empty fetch is reported at once as true, with the error stored. */
  lemma DiscoveryErrorSurfaces(c: Cursor)
    requires c.low != [] && !c.low[0]
    requires Poll(c.discovery).PollError?
    ensures Fetch(c).ret == Some(true)
    ensures Fetch(c).after.err == Some(Poll(c.discovery).error)
  {
  }

  /** A true `fetchNextLow` answer makes `FetchNext` return true at once, with nothing else consumed or changed. */
  lemma FetchTrueOnMessage(c: Cursor)
    requires c.low != [] && c.low[0]
    ensures Fetch(c) == Step(Some(true), c.(low := c.low[1..]))
  {
  }

  /**
   * After a false `fetchNextLow` answer, a wait that returns with the error slot
   * set makes `FetchNext` return true, whether the error came from this wait or
   * was left over from an earlier call.
   */
  lemma FetchTrueOnErrorAfterWait(c: Cursor)
    requires c.low != [] && !c.low[0]
    requires Wait(c.(low := c.low[1..])).ret == Some(true)
    requires Wait(c.(low := c.low[1..])).after.err.Some?
    ensures Fetch(c) == Step(Some(true), Wait(c.(low := c.low[1..])).after)
  {
  }

  /** The consumer: its cursor fields and the scripts of its two collaborators. */
  class HdfsConsumer {
    const topic: string
    var name: string
    var err: Option<Error>
    var openings: seq<Opening>
    var sleptMs: nat
    /** What `fetchNextLow` will answer from now on. */
    var low: seq<bool>
    /** What `nextFile(topic, name)` will answer from now on. */
    var discovery: seq<Discovery>

    function State(): Cursor
      reads this
    {
      Cursor(name, err, openings, sleptMs, low, discovery)
    }

    ghost predicate Valid()
      reads this
    {
      OpenedFinalized(State())
    }

    constructor (topic: string, name: string, low: seq<bool>, discovery: seq<Discovery>)
      ensures Valid() && this.topic == topic
      ensures State() == Cursor(name, None, [], 0, low, discovery)
    {
      this.topic := topic;
      this.name := name;
      this.err := None;
      this.openings := [];
      this.sleptMs := 0;
      this.low := low;
      this.discovery := discovery;
    }

    /** The next answer of `nextFile`, or `None` once the script has run out. */
    method NextFile() returns (d: Option<Discovery>)
      modifies this`discovery
      ensures old(discovery) == [] ==> d == None && discovery == []
      ensures old(discovery) != [] ==> d == Some(old(discovery)[0]) && discovery == old(discovery)[1..]
    {
      if discovery == [] {
        return None;
      }
      d := Some(discovery[0]);
      discovery := discovery[1..];
    }

    /** The next answer of `fetchNextLow`, or `None` once the script has run out. */
    method FetchNextLow() returns (more: Option<bool>)
      modifies this`low
      ensures old(low) == [] ==> more == None && low == []
      ensures old(low) != [] ==> more == Some(old(low)[0]) && low == old(low)[1..]
    {
      if low == [] {
        return None;
      }
      more := Some(low[0]);
      low := low[1..];
    }

    /** `waitAndOpenNextFile`. */
    method WaitAndOpenNextFile() returns (r: Option<bool>)
      requires Valid()
      modifies this
      ensures Valid()
      ensures Step(r, State()) == Wait(old(State()))
    {
      while true
        invariant Wait(State()) == Wait(old(State()))
        decreases |discovery|
      {
        ghost var before := State();
        var d := NextFile();
        if d.None? {
          return None;
        }
        match d.value
        case Failed(e) =>
          err := Some(e);
          return Some(true);
        case Next(f) =>
          if f != "" && !HasSuffix(f, OpenSuffix) {
            name := f;
            openings := openings + [Opening(f, 0)];
            return Some(true);
          }
          sleptMs := sleptMs + BackoffMs;
          WaitSkip(before);
      }
    }

    /** `FetchNext`. */
    method FetchNext() returns (r: Option<bool>)
      requires Valid()
      modifies this
      ensures Valid()
      ensures Step(r, State()) == Fetch(old(State()))
    {
      while true
        invariant Valid()
        invariant Fetch(State()) == Fetch(old(State()))
        decreases |low|
      {
        var more := FetchNextLow();
        if more.None? {
          return None;
        }
        if more.value {
          return Some(true);
        }
        var ok := WaitAndOpenNextFile();
        if ok.None? {
          return None;
        }
        if !ok.value {
          return Some(false);
        }
        if err.Some? {
          return Some(true);
        }
      }
    }
  }
}
