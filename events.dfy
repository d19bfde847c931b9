/**
 * The events the relay pushes to subscribers, and their JSON payloads.
 *
 * A percentage is carried as a whole number of tenths: the relay only ever
 * reads percentages with exactly one fractional digit, so `12.3%` is 123.
 */
module Events {
  import opened Wrappers
  import opened Text

  datatype Event =
    | Progress(tenths: nat)      // `{ progress: <percent> }`
    | Failure(message: string)   // `{ error: <message> }`
    | Completed(time: string)    // `{ progress: 100, time: <seconds> }`

  /** The message of an error the downloader printed while it ran. */
  const ChunkErrorMessage := "Download failed for this link"
  /** The message broadcast when the downloader exits unsuccessfully. */
  const ExitErrorMessage := "Download failed or unsupported link"
  /** The percentage a completion event carries: 100, in tenths. */
  const CompletedTenths: nat := 1000

  /** Reads back a number of the shape `\d+` or `\d+\.\d`, in tenths. */
  function ParseNumber(x: string): Option<nat> {
    if x != [] && AllDigits(x) then
      Some(DigitsValue(x) * 10)
    else if |x| >= 3 && x[|x| - 2] == '.' && AllDigits(x[..|x| - 2]) && IsDigit(x[|x| - 1]) then
      Some(DigitsValue(x[..|x| - 2]) * 10 + DigitValue(x[|x| - 1]))
    else
      None
  }

  /**
   * How `JSON.stringify` prints the number `parseFloat` reads from
   * `<digits>.<digit>`: shortest form, so a zero tenth is dropped. Every
   * percentage survives printing and reading back, to the tenth.
   */
  function NumberText(tenths: nat): (x: string)
    ensures ParseNumber(x) == Some(tenths)
  {
    var d := Decimal(tenths / 10);
    DecimalDigits(tenths / 10);
    if tenths % 10 == 0 then
      d
    else
      var x := d + "." + [DigitChar(tenths % 10)];
      assert x[..|x| - 2] == d && x[|x| - 2] == '.';
      assert ParseNumber(x) == Some(DigitsValue(d) * 10 + tenths % 10);
      x
  }

  /** Characters `JSON.stringify` would have to escape inside a string. */
  predicate NeedsNoEscape(m: string) {
    forall i :: 0 <= i < |m| ==> m[i] != '"' && m[i] != '\\' && m[i] >= ' '
  }

  /** Events whose text fields `JSON.stringify` copies verbatim. */
  predicate Encodable(e: Event) {
    match e
    case Progress(_) => true
    case Failure(m) => NeedsNoEscape(m)
    case Completed(t) => NeedsNoEscape(t)
  }

  const ProgressPrefix := "{\"progress\":"
  const ErrorPrefix := "{\"error\":\""
  const CompletedPrefix := "{\"progress\":100,\"time\":\""

  /** The part of `x` between `pre` and `suf`, when `x` has that shape. */
  function Between(x: string, pre: string, suf: string): (r: Option<string>)
    ensures r.Some? <==> |pre| + |suf| <= |x| && x[..|pre|] == pre && x[|x| - |suf|..] == suf
    ensures r.Some? ==> x == pre + r.value + suf
  {
    if |pre| + |suf| <= |x| && x[..|pre|] == pre && x[|x| - |suf|..] == suf then
      var m := x[|pre|..|x| - |suf|];
      assert x == x[..|pre|] + m + x[|x| - |suf|..];
      Some(m)
    else
      None
  }

  /** Reads a payload back into the event it encodes. */
  function DecodePayload(x: string): Option<Event> {
    var completed := Between(x, CompletedPrefix, "\"}");
    var failure := Between(x, ErrorPrefix, "\"}");
    var progress := Between(x, ProgressPrefix, "}");
    if completed.Some? then
      if NeedsNoEscape(completed.value) then Some(Completed(completed.value)) else None
    else if failure.Some? then
      if NeedsNoEscape(failure.value) then Some(Failure(failure.value)) else None
    else if progress.Some? && ParseNumber(progress.value).Some? then
      Some(Progress(ParseNumber(progress.value).value))
    else
      None
  }

  lemma BetweenOfConcat(pre: string, m: string, suf: string)
    ensures Between(pre + m + suf, pre, suf) == Some(m)
  {
    var x := pre + m + suf;
    assert x[..|pre|] == pre;
    assert x[|x| - |suf|..] == suf;
    assert x[|pre|..|x| - |suf|] == m;
  }

  /** A progress payload never looks like a completion payload. */
  lemma ProgressIsNotCompleted(t: nat)
    ensures Between(ProgressPrefix + NumberText(t) + "}", CompletedPrefix, "\"}").None?
  {
    var x := ProgressPrefix + NumberText(t) + "}";
    var n := NumberText(t);
    var d := Decimal(t / 10);
    DecimalDigits(t / 10);
    assert forall i :: 0 <= i < |n| ==> n[i] != ',' by {
      forall i | 0 <= i < |n| ensures n[i] != ',' {
        if i < |d| {
          assert n[i] == d[i];
        }
      }
    }
    if |x| > 15 {
      assert x[15] != ',' by {
        if 15 < 12 + |n| {
          assert x[15] == n[3];
        }
      }
      if |x| >= |CompletedPrefix| {
        assert x[..|CompletedPrefix|] != CompletedPrefix by {
          assert CompletedPrefix[15] == ',';
        }
      }
    }
  }

  /**
   * The JSON text `JSON.stringify` produces for the event's object. Decoding
   * it gives back the event, when its strings need no escaping.
   */
  function Payload(e: Event): (x: string)
    ensures Encodable(e) ==> DecodePayload(x) == Some(e)
  {
    match e
    case Progress(t) =>
      var x := ProgressPrefix + NumberText(t) + "}";
      ProgressIsNotCompleted(t);
      assert x[2] == 'p';
      assert Between(x, ErrorPrefix, "\"}").None? by {
        assert ErrorPrefix[2] == 'e';
      }
      BetweenOfConcat(ProgressPrefix, NumberText(t), "}");
      x
    case Failure(m) =>
      var x := ErrorPrefix + m + "\"}";
      assert x[2] == 'e';
      assert Between(x, CompletedPrefix, "\"}").None? by {
        assert CompletedPrefix[2] == 'p';
      }
      BetweenOfConcat(ErrorPrefix, m, "\"}");
      x
    case Completed(m) =>
      var x := CompletedPrefix + m + "\"}";
      BetweenOfConcat(CompletedPrefix, m, "\"}");
      x
  }
}
