/**
 * The debug console's log buffer: `addLog` joins the console arguments with
 * single spaces, appends an entry and keeps only the last fifty; Clear
 * empties it. Arguments arrive already rendered as text, and the timestamp
 * is a parameter.
 */
module DebugConsole {
  datatype LogType = Log | Error | Info

  datatype LogMessage = LogMessage(kind: LogType, message: string, timestamp: string)

  const Capacity: nat := 50

  /** JavaScript's `s.slice(-n)` for a positive `n`: the last `n` elements,
      or all of them when there are fewer. */
  function LastN<T>(s: seq<T>, n: nat): (r: seq<T>)
    ensures |r| == if |s| < n then |s| else n
    ensures r == s[|s| - |r|..]
  {
    if |s| <= n then s else s[|s| - n..]
  }

  /** The total length of the parts. */
  function TotalLength(parts: seq<string>): nat {
    if parts == [] then 0 else |parts[0]| + TotalLength(parts[1..])
  }

  /** `args.join(' ')`. */
  function Join(parts: seq<string>): (r: string)
    ensures parts != [] ==> |r| == TotalLength(parts) + |parts| - 1
    ensures parts == [] ==> r == ""
    ensures |parts| == 1 ==> r == parts[0]
    ensures parts != [] ==> parts[0] <= r
  {
    if parts == [] then ""
    else if |parts| == 1 then parts[0]
    else parts[0] + " " + Join(parts[1..])
  }

  /** Joining one more argument appends a space and that argument: the
      arguments appear left to right, one space between neighbours. */
  lemma {:induction false} JoinAppend(parts: seq<string>, p: string)
    requires parts != []
    ensures Join(parts + [p]) == Join(parts) + " " + p
    decreases |parts|
  {
    var longer := parts + [p];
    assert longer[0] == parts[0];
    if |parts| == 1 {
      assert longer[1..] == [p];
    } else {
      assert longer[1..] == parts[1..] + [p];
      JoinAppend(parts[1..], p);
      assert parts[0] + " " + (Join(parts[1..]) + " " + p) == parts[0] + " " + Join(parts[1..]) + " " + p;
    }
  }

  /** `addLog`: the joined message as a new entry at the end, then the last
      fifty entries. */
  function AddLog(logs: seq<LogMessage>, kind: LogType, args: seq<string>, timestamp: string): (r: seq<LogMessage>)
    ensures 0 < |r| <= Capacity
    ensures r[|r| - 1] == LogMessage(kind, Join(args), timestamp)
    ensures |logs| < Capacity ==> r == logs + [r[|r| - 1]]
    ensures |logs| == Capacity ==> r == logs[1..] + [r[|r| - 1]]
    ensures r[..|r| - 1] == logs[|logs| - (|r| - 1)..]
  {
    LastN(logs + [LogMessage(kind, Join(args), timestamp)], Capacity)
  }

  /** Clear. */
  function Clear(logs: seq<LogMessage>): (r: seq<LogMessage>)
    ensures |r| == 0
  {
    []
  }

  datatype Event = Logged(kind: LogType, args: seq<string>, timestamp: string) | Cleared

  function Entry(e: Event): LogMessage
    requires e.Logged?
  {
    LogMessage(e.kind, Join(e.args), e.timestamp)
  }

  function Apply(logs: seq<LogMessage>, e: Event): seq<LogMessage> {
    match e
    case Logged(kind, args, timestamp) => AddLog(logs, kind, args, timestamp)
    case Cleared => Clear(logs)
  }

  function Run(logs: seq<LogMessage>, events: seq<Event>): seq<LogMessage>
    decreases |events|
  {
    if events == [] then logs else Run(Apply(logs, events[0]), events[1..])
  }

  /** The entries of a run of log calls, in order. */
  function Entries(events: seq<Event>): seq<LogMessage>
    requires forall i :: 0 <= i < |events| ==> events[i].Logged?
  {
    if events == [] then [] else [Entry(events[0])] + Entries(events[1..])
  }

  /** Whatever the calls, the buffer never holds more than fifty entries. */
  lemma {:induction false} RunBounded(logs: seq<LogMessage>, events: seq<Event>)
    requires |logs| <= Capacity
    ensures |Run(logs, events)| <= Capacity
    decreases |events|
  {
    if events != [] {
      RunBounded(Apply(logs, events[0]), events[1..]);
    }
  }

  /** Trimming before appending more and trimming again changes nothing. */
  lemma {:induction false} LastNOfConcat<T>(s: seq<T>, t: seq<T>, n: nat)
    ensures LastN(LastN(s, n) + t, n) == LastN(s + t, n)
  {
    var u := LastN(s, n);
    if |s| > n {
      assert s + t == s[..|s| - n] + (u + t);
    }
  }

  // The three lemmas below are single steps of the proof of RunKeepsLastFifty,
  // stated apart so that each is checked on its own and that proof stays small.

  /** Regrouping a concatenation of three sequences. */
  lemma AppendAssociates<T>(a: seq<T>, b: seq<T>, c: seq<T>)
    ensures a + b + c == a + (b + c)
  {
  }

  /** A logged event adds its entry and keeps the last fifty. */
  lemma LoggedStep(logs: seq<LogMessage>, e: Event)
    requires e.Logged?
    ensures Apply(logs, e) == LastN(logs + [Entry(e)], Capacity)
  {
  }

  /** The entries of a run of logged events, first one split off. */
  lemma EntriesFirst(events: seq<Event>)
    requires events != [] && forall i :: 0 <= i < |events| ==> events[i].Logged?
    ensures Entries(events) == [Entry(events[0])] + Entries(events[1..])
  {
  }

  /** Without a Clear in between, the buffer holds the last fifty of all the
      entries logged, in the order they were logged. */
  lemma {:induction false} RunKeepsLastFifty(logs: seq<LogMessage>, events: seq<Event>)
    requires |logs| <= Capacity
    requires forall i :: 0 <= i < |events| ==> events[i].Logged?
    ensures Run(logs, events) == LastN(logs + Entries(events), Capacity)
    decreases |events|
  {
    if events != [] {
      var e := Entry(events[0]);
      var rest := Entries(events[1..]);
      var next := Apply(logs, events[0]);
      assert Run(logs, events) == Run(next, events[1..]);
      assert Run(next, events[1..]) == LastN(next + rest, Capacity) by {
        LoggedStep(logs, events[0]);
        RunKeepsLastFifty(next, events[1..]);
      }
      assert LastN(next + rest, Capacity) == LastN(logs + [e] + rest, Capacity) by {
        LoggedStep(logs, events[0]);
        LastNOfConcat(logs + [e], rest, Capacity);
      }
      assert logs + [e] + rest == logs + Entries(events) by {
        EntriesFirst(events);
        AppendAssociates(logs, [e], rest);
      }
    }
  }

  /** A Clear followed by log calls holds exactly the last fifty of those. */
  lemma ClearThenLog(logs: seq<LogMessage>, events: seq<Event>)
    requires forall i :: 0 <= i < |events| ==> events[i].Logged?
    ensures Run(logs, [Cleared] + events) == LastN(Entries(events), Capacity)
  {
    assert ([Cleared] + events)[1..] == events;
    RunKeepsLastFifty([], events);
    assert [] + Entries(events) == Entries(events);
  }
}
