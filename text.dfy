/**
 * The strings the Kafka container writes into its environment: decimal port
 * numbers, `host:port` connect strings and comma-separated listener lists of
 * the form `NAME://host:port`. Each format comes with the parser that reads it
 * back, and a lemma that parsing undoes formatting.
 */
module Text {
  import opened Options

  predicate IsDigit(c: char) {
    '0' <= c <= '9'
  }

  predicate AllDigits(s: string) {
    forall i :: 0 <= i < |s| ==> IsDigit(s[i])
  }

  /** The character of the decimal digit `d`. */
  function DigitChar(d: nat): (c: char)
    requires d < 10
    ensures IsDigit(c) && c as int - '0' as int == d
  {
    ('0' as int + d) as char
  }

  /**
   * The decimal text of `n`, as a template literal renders a non-negative
   * integer below 10^21 (JavaScript writes larger numbers in exponent form).
   */
  function Decimal(n: nat): (s: string)
    ensures |s| >= 1 && AllDigits(s)
    ensures s[0] == '0' ==> n == 0
    decreases n
  {
    if n < 10 then [DigitChar(n)] else Decimal(n / 10) + [DigitChar(n % 10)]
  }

  /** The number a string of decimal digits denotes. */
  function DigitsValue(s: string): nat
    requires AllDigits(s)
  {
    if |s| == 0 then 0 else 10 * DigitsValue(s[..|s| - 1]) + (s[|s| - 1] as int - '0' as int)
  }

  /** Reads a non-empty string of decimal digits; anything else is rejected. */
  function ParseDecimal(s: string): Option<nat> {
    if |s| >= 1 && AllDigits(s) then Some(DigitsValue(s)) else None
  }

  lemma {:induction false} DecimalRoundTrip(n: nat)
    ensures ParseDecimal(Decimal(n)) == Some(n)
  {
    if n >= 10 {
      DecimalRoundTrip(n / 10);
      var s := Decimal(n);
      assert s[..|s| - 1] == Decimal(n / 10);
      assert s[|s| - 1] as int - '0' as int == n % 10;
      assert DigitsValue(s) == 10 * (n / 10) + n % 10;
    }
  }

  /** The position of the first `c` in `s`. */
  function IndexOf(s: string, c: char): (i: nat)
    requires c in s
    ensures i < |s| && s[i] == c
    ensures forall j :: 0 <= j < i ==> s[j] != c
  {
    if s[0] == c then 0 else 1 + IndexOf(s[1..], c)
  }

  /** In `p + [c] + t`, where `p` holds no `c`, the first `c` is the one after `p`. */
  lemma IndexOfAfter(p: string, c: char, t: string)
    requires c !in p
    ensures IndexOf(p + [c] + t, c) == |p|
  {
    var s := p + [c] + t;
    assert s[|p|] == c;
    assert forall j :: 0 <= j < |p| ==> s[j] == p[j];
  }

  /** The position of the last `c` in `s`. */
  function LastIndexOf(s: string, c: char): (i: nat)
    requires c in s
    ensures i < |s| && s[i] == c
    ensures forall j :: i < j < |s| ==> s[j] != c
  {
    if s[|s| - 1] == c then |s| - 1 else LastIndexOf(s[..|s| - 1], c)
  }

  // ---------------------------------------------------------------- host:port

  /** The connect string `host:port`. */
  function HostPort(host: string, port: nat): string {
    host + ":" + Decimal(port)
  }

  /**
   * Splits a connect string at its last colon; the part after it must be a
   * decimal port. The host part may itself hold colons.
   */
  function SplitHostPort(s: string): Option<(string, nat)> {
    if ':' !in s then None
    else
      var i := LastIndexOf(s, ':');
      match ParseDecimal(s[i + 1..])
      case None => None
      case Some(p) => Some((s[..i], p))
  }

  /** A connect string names exactly the host and the port it was made of. */
  lemma HostPortRoundTrip(host: string, port: nat)
    ensures SplitHostPort(HostPort(host, port)) == Some((host, port))
  {
    var s, d := HostPort(host, port), Decimal(port);
    assert s[|host|] == ':';
    assert forall j :: |host| < j < |s| ==> s[j] == d[j - |host| - 1];
    var i := LastIndexOf(s, ':');
    assert s[..i] == host;
    assert s[i + 1..] == d;
    DecimalRoundTrip(port);
  }

  // ---------------------------------------------------------- separated lists

  /** The parts joined with `sep` between neighbours. */
  function Join(parts: seq<string>, sep: char): string {
    if |parts| == 0 then ""
    else if |parts| == 1 then parts[0]
    else parts[0] + [sep] + Join(parts[1..], sep)
  }

  /** The pieces of `s` between occurrences of `sep`, in order. */
  function Split(s: string, sep: char): (parts: seq<string>)
    ensures |parts| >= 1
    decreases |s|
  {
    if sep !in s then [s]
    else
      var i := IndexOf(s, sep);
      [s[..i]] + Split(s[i + 1..], sep)
  }

  /** Splitting undoes joining, as long as no part holds the separator. */
  lemma {:induction false} SplitJoin(parts: seq<string>, sep: char)
    requires |parts| >= 1
    requires forall k :: 0 <= k < |parts| ==> sep !in parts[k]
    ensures Split(Join(parts, sep), sep) == parts
  {
    if |parts| > 1 {
      var p, rest := parts[0], Join(parts[1..], sep);
      var s := p + [sep] + rest;
      IndexOfAfter(p, sep, rest);
      assert s[..|p|] == p;
      assert s[|p| + 1..] == rest;
      SplitJoin(parts[1..], sep);
    }
  }

  // ---------------------------------------------------------------- listeners

  /** One Kafka listener: its name, the host it is reached at and the port. */
  datatype Listener = Listener(name: string, host: string, port: nat)

  /** `NAME://host:port` */
  function FormatListener(l: Listener): string {
    l.name + "://" + HostPort(l.host, l.port)
  }

  /** Reads `NAME://host:port`: the name ends at the first colon. */
  function ParseListener(s: string): Option<Listener> {
    if ':' !in s then None
    else
      var i := IndexOf(s, ':');
      var rest := s[i + 1..];
      if |rest| < 2 || rest[..2] != "//" then None
      else
        match SplitHostPort(rest[2..])
        case None => None
        case Some(hp) => Some(Listener(s[..i], hp.0, hp.1))
  }

  lemma ListenerRoundTrip(l: Listener)
    requires ':' !in l.name
    ensures ParseListener(FormatListener(l)) == Some(l)
  {
    var hp := HostPort(l.host, l.port);
    var rest := "//" + hp;
    var s := l.name + [':'] + rest;
    assert FormatListener(l) == s;
    IndexOfAfter(l.name, ':', rest);
    assert s[..|l.name|] == l.name;
    assert s[|l.name| + 1..] == rest;
    assert rest[..2] == "//" && rest[2..] == hp;
    HostPortRoundTrip(l.host, l.port);
  }

  /** A listener that survives being written into a comma-separated list. */
  predicate WellFormed(l: Listener) {
    ':' !in l.name && ',' !in l.name && ',' !in l.host
  }

  /** Each listener written out, in order. */
  function FormatEntries(ls: seq<Listener>): (entries: seq<string>)
    ensures |entries| == |ls|
    ensures forall k :: 0 <= k < |ls| ==> entries[k] == FormatListener(ls[k])
  {
    if |ls| == 0 then [] else [FormatListener(ls[0])] + FormatEntries(ls[1..])
  }

  /** The comma-separated listener list, as `KAFKA_LISTENERS` holds it. */
  function FormatListeners(ls: seq<Listener>): string {
    Join(FormatEntries(ls), ',')
  }

  /** Parses every entry; one bad entry rejects the whole list. */
  function ParseEntries(entries: seq<string>): Option<seq<Listener>> {
    if |entries| == 0 then Some([])
    else
      match ParseListener(entries[0])
      case None => None
      case Some(l) =>
        match ParseEntries(entries[1..])
        case None => None
        case Some(ls) => Some([l] + ls)
  }

  function ParseListeners(s: string): Option<seq<Listener>> {
    ParseEntries(Split(s, ','))
  }

  lemma {:induction false} ParseEntriesFormatted(ls: seq<Listener>)
    requires forall k :: 0 <= k < |ls| ==> ':' !in ls[k].name
    ensures ParseEntries(FormatEntries(ls)) == Some(ls)
  {
    if |ls| > 0 {
      var entries := FormatEntries(ls);
      assert entries[0] == FormatListener(ls[0]);
      assert entries[1..] == FormatEntries(ls[1..]);
      ListenerRoundTrip(ls[0]);
      ParseEntriesFormatted(ls[1..]);
      assert [ls[0]] + ls[1..] == ls;
    }
  }

  /** A non-empty list of well-formed listeners reads back as itself. */
  lemma ListenersRoundTrip(ls: seq<Listener>)
    requires |ls| >= 1
    requires forall k :: 0 <= k < |ls| ==> WellFormed(ls[k])
    ensures ParseListeners(FormatListeners(ls)) == Some(ls)
  {
    var entries := FormatEntries(ls);
    forall k | 0 <= k < |entries|
      ensures ',' !in entries[k]
    {
      var d := Decimal(ls[k].port);
      assert forall j :: 0 <= j < |d| ==> d[j] != ',';
    }
    SplitJoin(entries, ',');
    ParseEntriesFormatted(ls);
  }
}
