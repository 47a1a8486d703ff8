/**
 * `load_or_create_log` and `save_log`, with the JSON text that serde
 * produces replaced by a simpler self-delimiting text form: numbers end in
 * `;`, strings carry their length in front, and lists their count. What
 * matters to the rest of the program is kept: saving and loading give back
 * the same log, and a missing file is an empty log.
 */
module Persistence {
  import opened Wrappers
  import opened Strings
  import opened Chrono
  import opened TimeLog

  /** A value read from the front of a text, and the text left after it. */
  datatype Parsed<T> = Parsed(value: T, rest: string)

  /** The message of every parse failure. */
  const ParseError: string := "malformed time log"

  function NatText(n: nat): string {
    NatToString(n) + ";"
  }

  function ParseNat(s: string): Option<Parsed<nat>> {
    var k := DigitPrefixLength(s);
    if k == 0 || k == |s| || s[k] != ';' then None
    else Some(Parsed(DigitsValue(s[..k]), s[k + 1..]))
  }

  lemma NatRoundTrip(n: nat, rest: string)
    ensures ParseNat(NatText(n) + rest) == Some(Parsed(n, rest))
  {
    var digits := NatToString(n);
    var s := NatText(n) + rest;
    assert s == digits + ([';'] + rest);
    DigitPrefixOf(digits, [';'] + rest);
    assert s[..|digits|] == digits;
    assert s[|digits| + 1..] == rest;
    NatToStringRoundTrip(n);
  }

  function IntText(i: int): string {
    if i < 0 then "-" + NatText(-i) else NatText(i)
  }

  function ParseInt(s: string): Option<Parsed<int>> {
    if s != [] && s[0] == '-' then
      match ParseNat(s[1..])
      case None => None
      case Some(p) => Some(Parsed(-(p.value as int), p.rest))
    else
      match ParseNat(s)
      case None => None
      case Some(p) => Some(Parsed(p.value as int, p.rest))
  }

  lemma IntRoundTrip(i: int, rest: string)
    ensures ParseInt(IntText(i) + rest) == Some(Parsed(i, rest))
  {
    if i < 0 {
      SignedRoundTrip(-i, rest);
    } else {
      UnsignedRoundTrip(i, rest);
    }
  }

  /** A number written after a minus sign is read back negated. */
  lemma SignedRoundTrip(n: nat, rest: string)
    requires n > 0
    ensures ParseInt(IntText(-(n as int)) + rest) == Some(Parsed(-(n as int), rest))
  {
    var t := NatText(n) + rest;
    assert IntText(-(n as int)) == "-" + NatText(n);
    assert IntText(-(n as int)) + rest == "-" + t;
    NatRoundTrip(n, rest);
    ParseNegative(t, n, rest);
  }

  /** A number written without a sign is read back as itself. */
  lemma UnsignedRoundTrip(n: nat, rest: string)
    ensures ParseInt(IntText(n) + rest) == Some(Parsed(n as int, rest))
  {
    var t := NatText(n) + rest;
    var digits := NatToString(n);
    assert t == digits + ([';'] + rest);
    assert t[0] == digits[0];
    NatRoundTrip(n, rest);
    ParseNonNegative(t, n, rest);
  }

  /** A minus sign in front of a number negates it. */
  lemma ParseNegative(t: string, n: nat, rest: string)
    requires ParseNat(t) == Some(Parsed(n, rest))
    ensures ParseInt("-" + t) == Some(Parsed(-(n as int), rest))
  {
    assert ("-" + t)[0] == '-' && ("-" + t)[1..] == t;
  }

  /** A number read without a sign is read as it is. */
  lemma ParseNonNegative(t: string, n: nat, rest: string)
    requires t != [] && t[0] != '-'
    requires ParseNat(t) == Some(Parsed(n, rest))
    ensures ParseInt(t) == Some(Parsed(n as int, rest))
  {
  }

  function StringText(t: string): string {
    NatText(|t|) + t
  }

  function ParseString(s: string): Option<Parsed<string>> {
    match ParseNat(s)
    case None => None
    case Some(p) =>
      if p.value <= |p.rest| then Some(Parsed(p.rest[..p.value], p.rest[p.value..])) else None
  }

  lemma StringRoundTrip(t: string, rest: string)
    ensures ParseString(StringText(t) + rest) == Some(Parsed(t, rest))
  {
    assert StringText(t) + rest == NatText(|t|) + (t + rest);
    NatRoundTrip(|t|, t + rest);
    assert (t + rest)[..|t|] == t && (t + rest)[|t|..] == rest;
  }

  function EntryText(e: LogEntry): string {
    StringText(e.key) + IntText(e.start) + IntText(e.end)
  }

  function ParseEntry(s: string): Option<Parsed<LogEntry>> {
    match ParseString(s)
    case None => None
    case Some(k) =>
      match ParseInt(k.rest)
      case None => None
      case Some(st) =>
        match ParseInt(st.rest)
        case None => None
        case Some(en) => Some(Parsed(LogEntry(k.value, st.value, en.value), en.rest))
  }

  lemma EntryRoundTrip(e: LogEntry, rest: string)
    ensures ParseEntry(EntryText(e) + rest) == Some(Parsed(e, rest))
  {
    var afterStart := IntText(e.end) + rest;
    var afterKey := IntText(e.start) + afterStart;
    assert EntryText(e) + rest == StringText(e.key) + afterKey;
    StringRoundTrip(e.key, afterKey);
    IntRoundTrip(e.start, afterStart);
    IntRoundTrip(e.end, rest);
    ParseEntryOfFields(EntryText(e) + rest, e, afterKey, afterStart, rest);
  }

  /** An entry is read as its name followed by its two timestamps. */
  lemma ParseEntryOfFields(s: string, e: LogEntry, afterKey: string, afterStart: string, rest: string)
    requires ParseString(s) == Some(Parsed(e.key, afterKey))
    requires ParseInt(afterKey) == Some(Parsed(e.start, afterStart))
    requires ParseInt(afterStart) == Some(Parsed(e.end, rest))
    ensures ParseEntry(s) == Some(Parsed(e, rest))
  {
  }

  function EntriesText(es: seq<LogEntry>): string
    decreases |es|
  {
    if es == [] then "" else EntryText(es[0]) + EntriesText(es[1..])
  }

  function ParseEntries(s: string, count: nat): Option<Parsed<seq<LogEntry>>>
    decreases count
  {
    if count == 0 then Some(Parsed([], s))
    else
      match ParseEntry(s)
      case None => None
      case Some(first) =>
        match ParseEntries(first.rest, count - 1)
        case None => None
        case Some(others) => Some(Parsed([first.value] + others.value, others.rest))
  }

  lemma {:induction false} EntriesRoundTrip(es: seq<LogEntry>, rest: string)
    ensures ParseEntries(EntriesText(es) + rest, |es|) == Some(Parsed(es, rest))
    decreases |es|
  {
    if es == [] {
      EntriesNilRoundTrip(rest);
    } else {
      EntriesRoundTrip(es[1..], rest);
      EntriesConsRoundTrip(es, rest);
    }
  }

  lemma EntriesNilRoundTrip(rest: string)
    ensures ParseEntries(EntriesText([]) + rest, 0) == Some(Parsed([], rest))
  {
    assert EntriesText([]) + rest == rest;
  }

  /** The step of `EntriesRoundTrip`: the first entry reads back, and then the others do. */
  lemma EntriesConsRoundTrip(es: seq<LogEntry>, rest: string)
    requires es != []
    requires ParseEntries(EntriesText(es[1..]) + rest, |es[1..]|) == Some(Parsed(es[1..], rest))
    ensures ParseEntries(EntriesText(es) + rest, |es|) == Some(Parsed(es, rest))
  {
    var later := EntriesText(es[1..]) + rest;
    EntryRoundTrip(es[0], later);
    EntriesTextCons(es, rest);
    ParseEntriesStep(EntriesText(es) + rest, es, later, rest);
  }

  lemma EntriesTextCons(es: seq<LogEntry>, rest: string)
    requires es != []
    ensures EntriesText(es) + rest == EntryText(es[0]) + (EntriesText(es[1..]) + rest)
  {
  }

  /** The first entry, then the others. */
  lemma ParseEntriesStep(s: string, es: seq<LogEntry>, mid: string, rest: string)
    requires es != []
    requires ParseEntry(s) == Some(Parsed(es[0], mid))
    requires ParseEntries(mid, |es| - 1) == Some(Parsed(es[1..], rest))
    ensures ParseEntries(s, |es|) == Some(Parsed(es, rest))
  {
    assert [es[0]] + es[1..] == es;
  }

  function PendingText(p: Option<PendingLog>): string {
    match p
    case None => "-"
    case Some(lg) => "+" + StringText(lg.key) + IntText(lg.start)
  }

  function ParsePending(s: string): Option<Parsed<Option<PendingLog>>> {
    if s == [] then None
    else if s[0] == '-' then Some(Parsed(None, s[1..]))
    else if s[0] != '+' then None
    else
      match ParseSession(s[1..])
      case None => None
      case Some(lg) => Some(Parsed(Some(lg.value), lg.rest))
  }

  /** The key and start of a pending session. */
  function ParseSession(s: string): Option<Parsed<PendingLog>> {
    match ParseString(s)
    case None => None
    case Some(k) =>
      match ParseInt(k.rest)
      case None => None
      case Some(st) => Some(Parsed(PendingLog(k.value, st.value), st.rest))
  }

  lemma PendingRoundTrip(p: Option<PendingLog>, rest: string)
    ensures ParsePending(PendingText(p) + rest) == Some(Parsed(p, rest))
  {
    var s := PendingText(p) + rest;
    if p.Some? {
      SessionRoundTrip(p.value, rest);
    } else {
      assert s == "-" + rest;
      assert s[0] == '-' && s[1..] == rest;
    }
  }

  lemma SessionRoundTrip(lg: PendingLog, rest: string)
    ensures ParsePending(PendingText(Some(lg)) + rest) == Some(Parsed(Some(lg), rest))
  {
    var key, start := StringText(lg.key), IntText(lg.start);
    var tail := key + (start + rest);
    assert PendingText(Some(lg)) + rest == "+" + tail by {
      assert PendingText(Some(lg)) == "+" + key + start;
    }
    SessionTextRoundTrip(lg, rest);
    ParsePendingSession(tail, lg, rest);
  }

  /** A `+` followed by a session is that session pending. */
  lemma ParsePendingSession(tail: string, lg: PendingLog, rest: string)
    requires ParseSession(tail) == Some(Parsed(lg, rest))
    ensures ParsePending("+" + tail) == Some(Parsed(Some(lg), rest))
  {
    SeqHead('+', tail);
  }

  lemma SeqHead(c: char, tail: string)
    ensures ([c] + tail)[0] == c && ([c] + tail)[1..] == tail
  {
  }

  lemma SessionTextRoundTrip(lg: PendingLog, rest: string)
    ensures ParseSession(StringText(lg.key) + (IntText(lg.start) + rest)) == Some(Parsed(lg, rest))
  {
    StringRoundTrip(lg.key, IntText(lg.start) + rest);
    IntRoundTrip(lg.start, rest);
  }

  /** `serde_json::to_string(log)`: the pending session, the number of entries, then the entries. */
  function Serialize(s: LogState): string {
    PendingText(s.pending) + NatText(|s.entries|) + EntriesText(s.entries)
  }

  /** `TimeLog::from_json`: the whole text must be one log. */
  function Parse(content: string): Result<LogState, string> {
    match ParsePending(content)
    case None => Err(ParseError)
    case Some(p) =>
      match ParseNat(p.rest)
      case None => Err(ParseError)
      case Some(n) =>
        match ParseEntries(n.rest, n.value)
        case None => Err(ParseError)
        case Some(es) => if es.rest == "" then Ok(LogState(p.value, es.value)) else Err(ParseError)
  }

  /** What is saved reads back as the same log. */
  lemma ParseSerialize(s: LogState)
    ensures Parse(Serialize(s)) == Ok(s)
  {
    var body := EntriesText(s.entries);
    assert Serialize(s) == PendingText(s.pending) + (NatText(|s.entries|) + (body + ""));
    PendingRoundTrip(s.pending, NatText(|s.entries|) + (body + ""));
    NatRoundTrip(|s.entries|, body + "");
    EntriesRoundTrip(s.entries, "");
  }

  /** `load_or_create_log`: a missing file is a fresh log, otherwise the file is parsed. */
  function LoadOrCreateLog(content: Option<string>): (r: Result<LogState, string>)
    ensures content.None? ==> r == Ok(LogState(None, []))
  {
    match content
    case None => Ok(LogState(None, []))
    case Some(c) => Parse(c)
  }

  /** Loading what `save_log` wrote gives back the saved log. */
  lemma LoadAfterSave(s: LogState)
    ensures LoadOrCreateLog(Some(Serialize(s))) == Ok(s)
  {
    ParseSerialize(s);
  }

  /**
   * serde_json writes a string verbatim between its quotes exactly when it
   * holds no `"`, no `\` and no control character; other names are escaped.
   */
  predicate JsonVerbatim(name: string) {
    forall c :: c in name ==> c != '"' && c != '\\' && c >= ' '
  }

  /**
   * The saved text of a tracking log whose project name serde_json writes
   * verbatim names the tracked project, right after its length.
   */
  lemma SerializeShowsPending(s: LogState)
    requires s.pending.Some? && JsonVerbatim(s.pending.value.key)
    ensures OccursAt(s.pending.value.key, Serialize(s), 1 + |NatText(|s.pending.value.key|)|)
  {
    KeyInSession(s.pending.value);
    OccursAppendTwice(s.pending.value.key, PendingText(s.pending), 1 + |NatText(|s.pending.value.key|)|,
                      NatText(|s.entries|), EntriesText(s.entries));
  }

  lemma OccursAppendTwice(pat: string, a: string, i: int, b: string, c: string)
    requires OccursAt(pat, a, i)
    ensures OccursAt(pat, a + b + c, i)
  {
    OccursAppend(pat, a, i, b);
    OccursAppend(pat, a + b, i, c);
  }

  /** The stand-in encoding writes a session's key after the `+` and the key's length. */
  lemma KeyInSession(lg: PendingLog)
    ensures OccursAt(lg.key, PendingText(Some(lg)), 1 + |NatText(|lg.key|)|)
  {
    var k, len := lg.key, NatText(|lg.key|);
    assert OccursAt(k, len + k, |len|) by {
      assert (len + k)[|len|..|len| + |k|] == k;
    }
    OccursPrepend(k, len + k, |len|, "+");
    OccursAppend(k, "+" + (len + k), 1 + |len|, IntText(lg.start));
    assert PendingText(Some(lg)) == "+" + (len + k) + IntText(lg.start);
  }
}
