/** `format_logs`: the log clean-up applied by the knowledge and database agents to every log list they return. */
module LogFormat {
  import opened Text

  /** An entry as `format_logs` leaves it: not blank and with no whitespace at either end. */
  predicate Clean(log: string) {
    log != [] && !IsSpace(log[0]) && !IsSpace(log[|log| - 1])
  }

  /** A log line as every agent writes it: `f"[{now}] {text}"`. */
  function Stamped(now: string, text: string): (log: string)
    ensures Bracketed(log)
  {
    "[" + now + "] " + text
  }

  /** A stamped line whose text does not end in whitespace is left as it is by stripping. */
  lemma StampedFixed(now: string, text: string)
    requires text != [] && !IsSpace(text[|text| - 1])
    ensures Strip(Stamped(now, text)) == Stamped(now, text)
  {
    var log := Stamped(now, text);
    assert log[|log| - 1] == text[|text| - 1];
    StripFixed(log);
  }

  /** A line that opens with a bracket, the shape of every agent's log lines. */
  predicate Bracketed(log: string) {
    |log| > 0 && log[0] == '['
  }

  /** `[log.strip() for log in logs if log.strip()]`. */
  function FormatLogs(logs: seq<string>): (r: seq<string>)
    ensures |r| <= |logs|
    ensures forall k :: 0 <= k < |r| ==> Clean(r[k])
  {
    if logs == [] then []
    else
      var rest := FormatLogs(logs[..|logs| - 1]);
      var last := Strip(logs[|logs| - 1]);
      if last != "" then rest + [last] else rest
  }

  /** Cleaning respects concatenation, so entries keep their relative order. */
  lemma {:induction false} FormatLogsAppend(a: seq<string>, b: seq<string>)
    ensures FormatLogs(a + b) == FormatLogs(a) + FormatLogs(b)
    decreases |b|
  {
    if b == [] {
      assert a + b == a;
    } else {
      var init := b[..|b| - 1];
      assert (a + b)[..|a + b| - 1] == a + init;
      assert (a + b)[|a + b| - 1] == b[|b| - 1];
      FormatLogsAppend(a, init);
      var last := Strip(b[|b| - 1]);
      if last != "" {
        assert FormatLogs(b) == FormatLogs(init) + [last];
        assert FormatLogs(a + b) == FormatLogs(a + init) + [last];
      } else {
        assert FormatLogs(b) == FormatLogs(init);
        assert FormatLogs(a + b) == FormatLogs(a + init);
      }
    }
  }

  /**
   * One entry: a whitespace-only entry is dropped and any other comes back
   * stripped. With `FormatLogsAppend` this fixes `FormatLogs` on every list.
   */
  lemma FormatLogsOne(log: string)
    ensures FormatLogs([log]) == if Strip(log) == "" then [] else [Strip(log)]
  {
    assert [log][..0] == [];
  }

  /** A list of whitespace-only entries cleans to nothing. */
  lemma {:induction false} FormatLogsAllBlank(logs: seq<string>)
    requires forall k :: 0 <= k < |logs| ==> Strip(logs[k]) == ""
    ensures FormatLogs(logs) == []
  {
    if logs != [] {
      var init := logs[..|logs| - 1];
      forall k | 0 <= k < |init| ensures Strip(init[k]) == "" {
        assert init[k] == logs[k];
      }
      FormatLogsAllBlank(init);
    }
  }

  /** Every entry stripped, in order: `[log.strip() for log in logs]`. */
  function StripEach(logs: seq<string>): (r: seq<string>)
    ensures |r| == |logs|
  {
    if logs == [] then [] else StripEach(logs[..|logs| - 1]) + [Strip(logs[|logs| - 1])]
  }

  /** Entry `k` of `StripEach(logs)` is entry `k` of `logs`, stripped. */
  lemma {:induction false} StripEachAt(logs: seq<string>, k: nat)
    requires k < |logs|
    ensures StripEach(logs)[k] == Strip(logs[k])
  {
    if k < |logs| - 1 {
      var init := logs[..|logs| - 1];
      StripEachAt(init, k);
      assert init[k] == logs[k];
    }
  }

  /** Entries that are not blank all survive, each stripped. */
  lemma {:induction false} FormatLogsKeepsNonBlank(logs: seq<string>)
    requires forall k :: 0 <= k < |logs| ==> Strip(logs[k]) != ""
    ensures FormatLogs(logs) == StripEach(logs)
  {
    if logs != [] {
      var init := logs[..|logs| - 1];
      forall k | 0 <= k < |init| ensures Strip(init[k]) != "" {
        assert init[k] == logs[k];
      }
      FormatLogsKeepsNonBlank(init);
    }
  }

  /** Cleaning a list of bracketed lines keeps every line, stripped. */
  lemma FormatLogsOfBracketed(logs: seq<string>)
    requires forall k :: 0 <= k < |logs| ==> Bracketed(logs[k])
    ensures FormatLogs(logs) == StripEach(logs)
  {
    forall k | 0 <= k < |logs| ensures Strip(logs[k]) != "" {
      BracketedNotBlank(logs[k]);
    }
    FormatLogsKeepsNonBlank(logs);
  }

  /** A bracketed line survives `format_logs`. */
  lemma BracketedNotBlank(a: string)
    requires Bracketed(a)
    ensures Strip(a) != ""
  {
    assert !IsSpace(a[0]);
  }

  /** `format_logs` on one bracketed line. */
  lemma FormatOne(a: string)
    requires Bracketed(a)
    ensures FormatLogs([a]) == [Strip(a)]
  {
    assert [a][..0] == [];
    BracketedNotBlank(a);
  }

  /** `format_logs` on two bracketed lines. */
  lemma FormatTwo(a: string, b: string)
    requires Bracketed(a) && Bracketed(b)
    ensures FormatLogs([a, b]) == [Strip(a), Strip(b)]
  {
    FormatLogsAppend([a], [b]);
    assert [a] + [b] == [a, b];
    FormatOne(a);
    FormatOne(b);
  }

  /** `format_logs` on three bracketed lines. */
  lemma FormatThree(a: string, b: string, c: string)
    requires Bracketed(a) && Bracketed(b) && Bracketed(c)
    ensures FormatLogs([a, b, c]) == [Strip(a), Strip(b), Strip(c)]
  {
    FormatLogsAppend([a, b], [c]);
    assert [a, b] + [c] == [a, b, c];
    FormatTwo(a, b);
    FormatOne(c);
  }

  /** A list that is already clean is left as it is. */
  lemma {:induction false} FormatLogsOfClean(logs: seq<string>)
    requires forall k :: 0 <= k < |logs| ==> Clean(logs[k])
    ensures FormatLogs(logs) == logs
  {
    if logs != [] {
      FormatLogsOfClean(logs[..|logs| - 1]);
      StripFixed(logs[|logs| - 1]);
    }
  }

  /** `format_logs` is idempotent. */
  lemma FormatLogsIdempotent(logs: seq<string>)
    ensures FormatLogs(FormatLogs(logs)) == FormatLogs(logs)
  {
    FormatLogsOfClean(FormatLogs(logs));
  }
}
