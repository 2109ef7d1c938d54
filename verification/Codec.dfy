/** The strings that travel through the log: commands and configurations, character by character
    (raftverified/kv.py, Command; raftverified/node.py, encode_config and decode_config). */
module Codec {
  import Types
  import opened Texts
  import opened Sorting
  import opened Lists

  datatype Command = Command(client: int, req: int, op: string, key: string, value: string, expected: string)

  const NOOP := Command(-1, -1, "noop", "", "", "")

  predicate IsOperation(op: string) {
    op == "put" || op == "get" || op == "cas"
  }

  function Fields(c: Command): seq<string> {
    [IntText(c.client), IntText(c.req), c.op, c.key, c.value, c.expected]
  }

  function Encode(c: Command): string {
    Join(Fields(c), ':')
  }

  /** Total: whatever is not a well-formed command is the no-op. */
  function Decode(s: string): Command {
    var parts := Split(s, ':');
    if |parts| != 6 then NOOP
    else
      var client, req := ParseInt(parts[0]), ParseInt(parts[1]);
      if client.None? || req.None? || !IsOperation(parts[2]) then NOOP
      else Command(client.value, req.value, parts[2], parts[3], parts[4], parts[5])
  }

  const PREFIX := "cfg:"

  function IntTexts(values: seq<int>): (r: seq<string>)
    ensures |r| == |values| && forall k | 0 <= k < |r| :: r[k] == IntText(values[k])
  {
    if values == [] then [] else [IntText(values[0])] + IntTexts(values[1..])
  }

  function EncodeConfig(voters: seq<int>): string {
    PREFIX + Join(IntTexts(Sort(voters, NotAbove)), ',')
  }

  /** All of the texts as integers, or nothing when one of them is not an integer. */
  function ParseAll(texts: seq<string>): Types.Option<seq<int>> {
    if texts == [] then Types.Some([])
    else
      match (ParseInt(texts[0]), ParseAll(texts[1..]))
      case (Some(value), Some(rest)) => Types.Some([value] + rest)
      case _ => Types.None
  }

  function DecodeConfig(s: string): Types.Option<seq<int>> {
    if PREFIX <= s then ParseAll(Split(s[|PREFIX|..], ',')) else Types.None
  }

  /** Every field but the identifiers is free of the separator. */
  predicate SeparatorFree(c: Command) {
    ':' !in c.op && ':' !in c.key && ':' !in c.value && ':' !in c.expected
  }

  lemma FieldsFree(c: Command)
    ensures SeparatorFree(c) <==> forall k | 0 <= k < 6 :: ':' !in Fields(c)[k]
  {
    IntTextShape(c.client);
    IntTextShape(c.req);
    var f := Fields(c);
    assert ':' !in f[0] && ':' !in f[1] && f[2] == c.op && f[3] == c.key && f[4] == c.value && f[5] == c.expected;
  }

  /** The round trip, for every command: it holds exactly for put, get and cas with separator-free fields,
      whatever the identifiers, and for the no-op. */
  lemma RoundTrip(c: Command)
    ensures Decode(Encode(c)) == c <==> (IsOperation(c.op) && SeparatorFree(c)) || c == NOOP
  {
    hide Split, Join, ParseInt, IntText;
    FieldsFree(c);
    SplitCounts(Fields(c), ':');
    ParseIntText(c.client);
    ParseIntText(c.req);
    if SeparatorFree(c) {
      SplitJoin(Fields(c), ':');
    }
  }

  /** Decoding is onto its own canonical form: what was decoded, encoded again, decodes to the same. */
  lemma DecodeIsStable(s: string)
    ensures Decode(Encode(Decode(s))) == Decode(s)
  {
    hide Join, ParseInt, IntText, Separators;
    PartsFree(s, ':');
    RoundTrip(Decode(s));
  }

  /** The other round trip: a decoded string is what the encoder writes exactly when its identifiers are
      spelled the way the encoder spells them ("1", not "01", "+1" or " 1"). */
  lemma DecodeEncode(s: string)
    requires Decode(s) != NOOP
    ensures Encode(Decode(s)) == s
            <==> Split(s, ':')[0] == IntText(Decode(s).client) && Split(s, ':')[1] == IntText(Decode(s).req)
  {
    hide Join, Split, ParseInt, IntText;
    var c, parts := Decode(s), Split(s, ':');
    PartsFree(s, ':');
    JoinSplit(s, ':');
    FieldsFree(c);
    SplitJoin(Fields(c), ':');
    if parts[0] == IntText(c.client) && parts[1] == IntText(c.req) {
      assert Fields(c) == parts;
    }
  }

  lemma {:induction false} ParseAllTexts(values: seq<int>)
    ensures ParseAll(IntTexts(values)) == Types.Some(values)
  {
    hide ParseInt, IntText;
    if values != [] {
      ParseIntText(values[0]);
      ParseAllTexts(values[1..]);
      assert IntTexts(values)[1..] == IntTexts(values[1..]);
      assert values == [values[0]] + values[1..];
    }
  }

  lemma TextsFree(values: seq<int>, sep: char)
    requires sep == ',' || sep == ':'
    ensures forall k | 0 <= k < |IntTexts(values)| :: sep !in IntTexts(values)[k]
  {
    forall k | 0 <= k < |values| ensures sep !in IntTexts(values)[k] {
      IntTextShape(values[k]);
    }
  }

  /** A configuration reads back as its sorted voters; the empty one reads back as no configuration. */
  lemma ConfigRoundTrip(voters: seq<int>)
    ensures DecodeConfig(EncodeConfig(voters)) == if voters == [] then Types.None else Types.Some(Sort(voters, NotAbove))
  {
    hide ParseInt, IntText;
    var sorted := Sort(voters, NotAbove);
    SortIsSorted(voters);
    var s := EncodeConfig(voters);
    assert s[|PREFIX|..] == Join(IntTexts(sorted), ',');
    if voters == [] {
      assert Split("", ',') == [""];
      EmptyIsNoInteger();
    } else {
      assert |multiset(voters)| == |multiset(sorted)|;
      TextsFree(sorted, ',');
      SplitJoin(IntTexts(sorted), ',');
      ParseAllTexts(sorted);
    }
  }

  /** The encoding is canonical: it depends on the voters only, not on their order. */
  lemma ConfigIsCanonical(v: seq<int>, w: seq<int>)
    ensures EncodeConfig(v) == EncodeConfig(w) <==> multiset(v) == multiset(w)
  {
    hide EncodeConfig, DecodeConfig;
    SortIsSorted(v);
    SortIsSorted(w);
    if multiset(v) == multiset(w) {
      SortedUnique(Sort(v, NotAbove), Sort(w, NotAbove));
      SameSorted(v, w);
    }
    ConfigRoundTrip(v);
    ConfigRoundTrip(w);
    assert v == [] <==> |multiset(v)| == 0;
    assert w == [] <==> |multiset(w)| == 0;
  }

  lemma SameSorted(v: seq<int>, w: seq<int>)
    requires Sort(v, NotAbove) == Sort(w, NotAbove)
    ensures EncodeConfig(v) == EncodeConfig(w)
  {}

  /** No configuration entry, well formed or not, is a command of the state machine. */
  lemma ConfigIsNoop(s: string)
    requires PREFIX <= s
    ensures Decode(s) == NOOP
  {
    hide ParseInt;
    SplitFirst("cfg", s[|PREFIX|..], ':');
    assert s == "cfg" + [':'] + s[|PREFIX|..];
    LettersAreNoInteger();
  }

  /** No command, well formed or not, is a configuration. */
  lemma CommandIsNoConfig(c: Command)
    ensures DecodeConfig(Encode(c)) == Types.None
  {
    hide IntText;
    IntTextShape(c.client);
    var s := Encode(c);
    assert s[0] == IntText(c.client)[0];
    assert PREFIX[0] == 'c';
  }

  // The command datatype of the protocol stands for these strings.

  function Op(op: Types.Op): string {
    match op
    case Put => "put"
    case Get => "get"
    case Cas => "cas"
  }

  ghost predicate SpellsConfig(v: seq<int>, s: string, voters: set<Types.NodeId>) {
    && v != [] && Distinct(v) && s == EncodeConfig(v)
    && (forall x | x in v :: x >= 0 && x in voters) && forall x | x in voters :: x in v
  }

  /** s is the string the program writes for c. */
  ghost predicate Spells(s: string, c: Types.Command) {
    match c
    case Config(voters) => exists v :: SpellsConfig(v, s, voters)
    case Kv(client, req, op, key, value, expected) =>
      var raw := Command(client, req, Op(op), key, value, expected);
      SeparatorFree(raw) && s == Encode(raw)
    case Opaque(text) => s == text && DecodeConfig(s).None? && Decode(s) == NOOP
  }

  /** Reading back what was written: one string never stands for two commands. */
  lemma SpellingIsUnambiguous(s: string, c: Types.Command, d: Types.Command)
    requires Spells(s, c) && Spells(s, d)
    ensures c == d
  {
    hide Encode, Decode, EncodeConfig, DecodeConfig;
    SpellingReads(s, c);
    SpellingReads(s, d);
    if c.Config? && d.Config? {
      assert c.voters == d.voters;
    }
  }

  lemma SpellingReads(s: string, c: Types.Command)
    requires Spells(s, c)
    ensures c.Config? ==> DecodeConfig(s).Some? && (forall x: int | x in DecodeConfig(s).value :: x >= 0 && x in c.voters)
                          && forall x | x in c.voters :: x in DecodeConfig(s).value
    ensures !c.Config? ==> DecodeConfig(s).None?
    ensures c.Kv? ==> Decode(s) == Command(c.client, c.req, Op(c.op), c.key, c.value, c.expected)
    ensures c.Opaque? ==> Decode(s) == NOOP && c.text == s
  {
    hide Encode, Decode, EncodeConfig, DecodeConfig;
    if c.Config? {
      var v :| SpellsConfig(v, s, c.voters);
      ConfigRoundTrip(v);
      SortIsSorted(v);
      assert forall x :: x in v <==> x in multiset(v);
      assert forall x :: x in Sort(v, NotAbove) <==> x in multiset(Sort(v, NotAbove));
    } else if c.Kv? {
      var raw := Command(c.client, c.req, Op(c.op), c.key, c.value, c.expected);
      RoundTrip(raw);
      CommandIsNoConfig(raw);
    }
  }

  /** Writing is a function: two strings for one command are the same string, so comparing entries of
      the model compares the strings of the program. */
  lemma SpellingIsCanonical(s: string, t: string, c: Types.Command)
    requires Spells(s, c) && Spells(t, c)
    ensures s == t
  {
    hide Encode, Decode, EncodeConfig, DecodeConfig;
    if c.Config? {
      var v :| SpellsConfig(v, s, c.voters);
      var w :| SpellsConfig(w, t, c.voters);
      DistinctSame(v, w);
      ConfigIsCanonical(v, w);
    }
  }

  lemma DistinctSame(v: seq<int>, w: seq<int>)
    requires Distinct(v) && Distinct(w) && (forall x | x in v :: x in w) && forall x | x in w :: x in v
    ensures multiset(v) == multiset(w)
  {
    forall x ensures multiset(v)[x] == multiset(w)[x] {
      DistinctOnce(v, x);
      DistinctOnce(w, x);
    }
  }

  lemma {:induction false} DistinctOnce(v: seq<int>, x: int)
    requires Distinct(v)
    ensures multiset(v)[x] == if x in v then 1 else 0
  {
    if v != [] {
      DistinctOnce(v[1..], x);
      assert v == [v[0]] + v[1..];
    }
  }

  // ---- the format ----

  lemma JoinCons(first: string, rest: seq<string>, sep: char)
    requires rest != []
    ensures Join([first] + rest, sep) == first + [sep] + Join(rest, sep)
  {
    assert ([first] + rest)[1..] == rest;
  }

  /** Six fields, five separators. */
  lemma CommandIsWritten(c: Command)
    ensures Encode(c) == IntText(c.client) + ":" + IntText(c.req) + ":" + c.op + ":" + c.key + ":" + c.value + ":" + c.expected
  {
    hide Join, IntText;
    var last := [c.expected];
    var tail := [c.value] + last;
    var low := [c.op] + ([c.key] + tail);
    JoinCons(c.value, last, ':');
    JoinCons(c.key, tail, ':');
    JoinCons(c.op, [c.key] + tail, ':');
    JoinCons(IntText(c.req), low, ':');
    JoinCons(IntText(c.client), [IntText(c.req)] + low, ':');
    JoinOne(c.expected, ':');
    assert Fields(c) == [IntText(c.client)] + ([IntText(c.req)] + low);
  }

  lemma JoinOne(s: string, sep: char)
    ensures Join([s], sep) == s
  {}

  lemma PairSorts(a: int, b: int)
    ensures Sort([a, b], NotAbove) == if a <= b then [a, b] else [b, a]
  {
    assert [a, b][1..] == [b] && [b][1..] == [];
    assert Sort([b], NotAbove) == Insert(b, [], NotAbove) == [b];
    assert Sort([a, b], NotAbove) == Insert(a, [b], NotAbove);
    if b < a { assert Insert(a, [b], NotAbove) == [b] + Insert(a, [], NotAbove); }
  }

  /** The voters in ascending order after the prefix. */
  lemma ConfigIsWritten(a: int, b: int)
    requires a < b
    ensures EncodeConfig([a, b]) == EncodeConfig([b, a]) == "cfg:" + IntText(a) + "," + IntText(b)
  {
    hide Join, IntText;
    assert Sort([b, a], NotAbove) == [a, b] by { PairSorts(b, a); }
    assert Sort([a, b], NotAbove) == [a, b] by { PairSorts(a, b); }
    assert IntTexts([b]) == [IntText(b)] && IntTexts([a, b]) == [IntText(a)] + [IntText(b)];
    JoinCons(IntText(a), [IntText(b)], ',');
    JoinOne(IntText(b), ',');
  }

  /** Identifiers are written in decimal, most significant digit first. */
  lemma NumbersAreWritten()
    ensures IntText(0) == "0" && IntText(2) == "2" && IntText(-10) == "-10" && IntText(11) == "11"
  {
    assert NatText(10) == NatText(1) + [DigitChar(0)];
    assert NatText(11) == NatText(1) + [DigitChar(1)];
  }
}
