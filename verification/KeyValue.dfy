/** The key-value state machine that committed commands are applied to. */
module KeyValue {
  import opened RaftTypes

  datatype Command = Set(key: string, value: string) | Delete(key: string)

  type Store = map<string, string>

  // ---------- parsing ----------

  /** The characters with the Unicode property White_Space. */
  predicate IsWhitespace(c: char) {
    || '\U{0009}' <= c <= '\U{000D}'
    || c in {'\U{0020}', '\U{0085}', '\U{00A0}', '\U{1680}', '\U{2028}', '\U{2029}', '\U{202F}', '\U{205F}', '\U{3000}'}
    || '\U{2000}' <= c <= '\U{200A}'
  }

  function TrimStart(s: string): (r: string)
    ensures |r| <= |s| && r == s[|s| - |r|..]
    ensures r != "" ==> !IsWhitespace(r[0])
    ensures forall k :: 0 <= k < |s| - |r| ==> IsWhitespace(s[k])
  {
    if s != "" && IsWhitespace(s[0]) then TrimStart(s[1..]) else s
  }

  function TrimEnd(s: string): (r: string)
    ensures r <= s
    ensures r != "" ==> !IsWhitespace(r[|r| - 1])
    ensures forall k :: |r| <= k < |s| ==> IsWhitespace(s[k])
  {
    if s != "" && IsWhitespace(s[|s| - 1]) then TrimEnd(s[..|s| - 1]) else s
  }

  function Trim(s: string): string {
    TrimEnd(TrimStart(s))
  }

  /** The part before and the part after the first space. */
  function SplitOnce(s: string): (r: Option<(string, string)>)
    ensures r.Some? ==> s == r.value.0 + " " + r.value.1 && ' ' !in r.value.0
    ensures r.None? ==> ' ' !in s
  {
    if s == "" then None
    else if s[0] == ' ' then Some(("", s[1..]))
    else
      match SplitOnce(s[1..])
      case None => None
      case Some((before, after)) => Some(([s[0]] + before, after))
  }

  function ParseCommand(raw: string): Option<Command> {
    var trimmed := Trim(raw);
    if trimmed == "" then None
    else if "set " <= trimmed then
      match SplitOnce(trimmed[4..])
      case None => None
      case Some((key, value)) => if key == "" then None else Some(Set(key, value))
    else if "del " <= trimmed then
      var key := Trim(trimmed[4..]);
      if key == "" then None else Some(Delete(key))
    else None
  }

  /** Splitting is undone by joining, and nothing else joins to the same line. */
  lemma {:induction false} SplitJoined(key: string, value: string)
    requires ' ' !in key
    ensures SplitOnce(key + " " + value) == Some((key, value))
    decreases |key|
  {
    var joined := key + " " + value;
    if key == "" {
      assert joined[1..] == value;
    } else {
      SplitJoined(key[1..], value);
      assert joined[1..] == key[1..] + " " + value;
      assert joined[0] == key[0] && key[0] in key;
      assert [key[0]] + key[1..] == key;
    }
  }

  lemma TrimNothing(s: string)
    requires s != "" && !IsWhitespace(s[0]) && !IsWhitespace(s[|s| - 1])
    ensures Trim(s) == s
  {
  }

  /** A set command as a user writes it is read back as the key and value written. */
  lemma SetRoundTrip(key: string, value: string)
    requires key != "" && ' ' !in key
    requires value != "" && !IsWhitespace(value[|value| - 1])
    ensures ParseCommand("set " + key + " " + value) == Some(Set(key, value))
  {
    var line := "set " + key + " " + value;
    assert line == "set " + (key + " " + value);
    TrimNothing(line);
    assert line[4..] == key + " " + value;
    SplitJoined(key, value);
  }

  /** A key and a value that a line can set: the key has no space, and trimming leaves the value alone. */
  predicate Settable(key: string, value: string) {
    key != "" && ' ' !in key && value != "" && !IsWhitespace(value[|value| - 1])
  }

  lemma TrimmedEnd(raw: string)
    ensures Trim(raw) != "" ==> !IsWhitespace(Trim(raw)[0]) && !IsWhitespace(Trim(raw)[|Trim(raw)| - 1])
  {
  }

  /** What a line sets is settable. */
  lemma SetsSettable(raw: string, key: string, value: string)
    requires ParseCommand(raw) == Some(Set(key, value))
    ensures Settable(key, value)
  {
    TrimmedEnd(raw);
    hide Trim;
    var trimmed := Trim(raw);
    var (before, after) := SplitOnce(trimmed[4..]).value;
    var rest := trimmed[4..];
    assert rest == before + " " + after && rest[|before|] == ' ';
    assert rest[|rest| - 1] == trimmed[|trimmed| - 1];
  }

  /** Exactly which writes the text format can express. */
  lemma SetExactly(key: string, value: string)
    ensures (exists raw :: ParseCommand(raw) == Some(Set(key, value))) <==> Settable(key, value)
  {
    hide ParseCommand;
    forall raw | ParseCommand(raw) == Some(Set(key, value)) ensures Settable(key, value) {
      SetsSettable(raw, key, value);
    }
    if Settable(key, value) {
      SetRoundTrip(key, value);
    }
  }

  /** A delete command is read back as the key, for exactly the keys that trimming leaves alone. */
  lemma DeleteRoundTrip(key: string)
    requires key != ""
    ensures ParseCommand("del " + key) == Some(Delete(key)) <==> !IsWhitespace(key[0]) && !IsWhitespace(key[|key| - 1])
  {
    hide Trim;
    DeletesTrimmed("del " + key);
    if !IsWhitespace(key[0]) && !IsWhitespace(key[|key| - 1]) {
      TrimNothing("del " + key);
      TrimNothing(key);
      assert ("del " + key)[4..] == key;
    }
  }

  lemma DeletesTrimmed(raw: string)
    ensures var c := ParseCommand(raw);
            c.Some? && c.value.Delete? ==>
              && c.value.key != ""
              && !IsWhitespace(c.value.key[0]) && !IsWhitespace(c.value.key[|c.value.key| - 1])
  {
    if "del " <= Trim(raw) { TrimmedEnd(Trim(raw)[4..]); }
    hide Trim;
  }

  // ---------- parsing, exactly ----------

  /** From `i` to `j` is the line without the whitespace around it. */
  predicate Bare(raw: string, i: nat, j: nat) {
    && i <= j <= |raw|
    && (forall k :: 0 <= k < i ==> IsWhitespace(raw[k]))
    && (forall k :: j <= k < |raw| ==> IsWhitespace(raw[k]))
    && (i < j ==> !IsWhitespace(raw[i]) && !IsWhitespace(raw[j - 1]))
  }

  predicate CoreOf(core: string, raw: string) {
    exists i: nat, j: nat :: i <= j <= |raw| && Bare(raw, i, j) && core == raw[i..j]
  }

  /** Trimming takes away exactly the whitespace around the line. */
  lemma TrimExactly(raw: string, core: string)
    ensures Trim(raw) == core <==> CoreOf(core, raw)
  {
    var i, j := TrimIsBare(raw);
    hide IsWhitespace, Trim;
    forall p: nat, q: nat | p <= q <= |raw| && Bare(raw, p, q) ensures raw[p..q] == raw[i..j] {
      BareUnique(raw, i, j, p, q);
    }
  }

  lemma TrimIsBare(raw: string) returns (i: nat, j: nat)
    ensures i <= j <= |raw| && Bare(raw, i, j) && Trim(raw) == raw[i..j]
  {
    TrimmedEnd(raw);
    hide IsWhitespace;
    var start := TrimStart(raw);
    i := |raw| - |start|;
    j := i + |TrimEnd(start)|;
    assert start == raw[i..];
    hide TrimStart, TrimEnd;
    forall k | j <= k < |raw| ensures IsWhitespace(raw[k]) {
      assert raw[k] == start[k - i];
    }
    assert Trim(raw) == start[..j - i] == raw[i..j];
    if i < j { assert Trim(raw)[0] == raw[i] && Trim(raw)[j - i - 1] == raw[j - 1]; }
  }

  lemma BareUnique(raw: string, i: nat, j: nat, p: nat, q: nat)
    requires Bare(raw, i, j) && Bare(raw, p, q)
    ensures raw[i..j] == raw[p..q]
  {
    hide IsWhitespace;
  }

  /** A line sets a key exactly if, without the whitespace around it, it is the word set, the key and the value with one
      space between each; the key is not empty and has no space. */
  lemma SetParsedExactly(raw: string, key: string, value: string)
    ensures ParseCommand(raw) == Some(Set(key, value)) <==>
            key != "" && ' ' !in key && CoreOf("set " + key + " " + value, raw)
  {
    var line := "set " + key + " " + value;
    TrimExactly(raw, line);
    var trimmed := Trim(raw);
    hide Trim, CoreOf;
    assert line == "set " + (key + " " + value);
    if key != "" && ' ' !in key && trimmed == line {
      assert line[4..] == key + " " + value;
      SplitJoined(key, value);
    }
    if ParseCommand(raw) == Some(Set(key, value)) {
      assert trimmed[..4] == "set " && trimmed == trimmed[..4] + trimmed[4..];
    }
  }

  /** A line deletes a key exactly if, without the whitespace around it, it is the word del, a space and something of
      which the key, not empty, is all but the whitespace around it. */
  lemma DeleteParsedExactly(raw: string, key: string)
    ensures ParseCommand(raw) == Some(Delete(key)) <==>
            key != "" && exists rest :: CoreOf("del " + rest, raw) && CoreOf(key, rest)
  {
    hide CoreOf, Trim, SplitOnce;
    var trimmed := Trim(raw);
    if ParseCommand(raw) == Some(Delete(key)) {
      var rest := trimmed[4..];
      assert trimmed[..4] == "del " && trimmed == "del " + rest;
      TrimExactly(raw, trimmed);
      TrimExactly(rest, key);
      assert CoreOf("del " + rest, raw) && CoreOf(key, rest);
    } else if key != "" {
      forall rest | CoreOf("del " + rest, raw) ensures !CoreOf(key, rest) {
        TrimExactly(raw, "del " + rest);
        TrimExactly(rest, key);
        if Trim(rest) == key { DeleteParsed(raw, rest); }
      }
    }
  }

  lemma DeleteParsed(raw: string, rest: string)
    requires Trim(raw) == "del " + rest && Trim(rest) != ""
    ensures ParseCommand(raw) == Some(Delete(Trim(rest)))
  {
    hide Trim, SplitOnce;
    var line := "del " + rest;
    assert line[4..] == rest && line[0] == 'd' && "set "[0] == 's';
  }

  // ---------- applying ----------

  function Apply(s: Store, raw: string): Store {
    match ParseCommand(raw)
    case None => s
    case Some(Set(key, value)) => s[key := value]
    case Some(Delete(key)) => s - {key}
  }

  /** One command changes the key it is about, and nothing else. */
  lemma AppliedExactly(s: Store, raw: string, key: string)
    ensures Lookup(Apply(s, raw), key)
         == match ParseCommand(raw)
            case None => Lookup(s, key)
            case Some(Set(k, value)) => if k == key then Some(value) else Lookup(s, key)
            case Some(Delete(k)) => if k == key then None else Lookup(s, key)
  {
    hide ParseCommand;
  }

  function ApplyAll(s: Store, commands: seq<string>): Store
    decreases |commands|
  {
    if commands == [] then s else ApplyAll(Apply(s, commands[0]), commands[1..])
  }

  /** What one command says about `key`: nothing, that it is gone, or its value. */
  function Outcome(raw: string, key: string): Option<Option<string>> {
    match ParseCommand(raw)
    case None => None
    case Some(Set(k, value)) => if k == key then Some(Some(value)) else None
    case Some(Delete(k)) => if k == key then Some(None) else None
  }

  /** What the last command on `key` says about it. */
  function LastWrite(commands: seq<string>, key: string): Option<Option<string>>
    decreases |commands|
  {
    if commands == [] then None
    else
      var outcome := Outcome(commands[|commands| - 1], key);
      if outcome.Some? then outcome else LastWrite(commands[..|commands| - 1], key)
  }

  function Lookup(s: Store, key: string): Option<string> {
    if key in s then Some(s[key]) else None
  }

  lemma {:induction false} ApplyAllConcat(s: Store, a: seq<string>, b: seq<string>)
    ensures ApplyAll(s, a + b) == ApplyAll(ApplyAll(s, a), b)
    decreases |a|
  {
    if a == [] {
      assert a + b == b;
    } else {
      assert (a + b)[1..] == a[1..] + b;
      ApplyAllConcat(Apply(s, a[0]), a[1..], b);
    }
  }

  lemma ApplyLookup(s: Store, raw: string, key: string)
    ensures Lookup(Apply(s, raw), key)
         == match Outcome(raw, key)
            case None => Lookup(s, key)
            case Some(outcome) => outcome
  {
    hide ParseCommand;
  }

  /** Last writer wins: after any commands, a key holds what the last command on it said, or else what it held. */
  lemma {:induction false} LastWriterWins(s: Store, commands: seq<string>, key: string)
    ensures Lookup(ApplyAll(s, commands), key)
         == match LastWrite(commands, key)
            case None => Lookup(s, key)
            case Some(outcome) => outcome
    decreases |commands|
  {
    hide Apply, Lookup, Outcome;
    if commands != [] {
      var earlier, last := commands[..|commands| - 1], commands[|commands| - 1];
      assert commands == earlier + [last];
      ApplyAllConcat(s, earlier, [last]);
      assert ApplyAll(ApplyAll(s, earlier), [last]) == Apply(ApplyAll(s, earlier), last);
      LastWriterWins(s, earlier, key);
      ApplyLookup(ApplyAll(s, earlier), last, key);
    }
  }

  lemma LookupDetermines(a: Store, b: Store)
    requires forall key :: Lookup(a, key) == Lookup(b, key)
    ensures a == b
  {
    assert forall key :: key in a <==> Lookup(a, key).Some?;
    assert forall key :: key in b <==> Lookup(b, key).Some?;
    assert forall key :: key in a ==> a[key] == Lookup(a, key).value == b[key];
  }

  /** Replaying commands on a store that has already seen them changes nothing. */
  lemma ReplayIsHarmless(s: Store, commands: seq<string>)
    ensures ApplyAll(ApplyAll(s, commands), commands) == ApplyAll(s, commands)
  {
    var once := ApplyAll(s, commands);
    var twice := ApplyAll(once, commands);
    forall key ensures Lookup(twice, key) == Lookup(once, key) {
      LastWriterWins(s, commands, key);
      LastWriterWins(once, commands, key);
    }
    LookupDetermines(twice, once);
  }

  // ---------- the state machine object ----------

  /** Snapshot bytes: none at all, an encoded store, or anything else. Encoding a store is taken to be faithful. */
  datatype Image = NoBytes | Encoded(store: Store) | Undecodable

  class KeyValueStateMachine {
    var state: Store

    constructor ()
      ensures state == map[]
    {
      state := map[];
    }

    method ApplyCommand(raw: string)
      modifies this
      ensures state == Apply(old(state), raw)
    {
      var command := ParseCommand(raw);
      if command.Some? {
        match command.value {
          case Set(key, value) => state := state[key := value];
          case Delete(key) => state := state - {key};
        }
      }
    }

    method Snapshot() returns (image: Image)
      ensures image == Encoded(state)
    {
      return Encoded(state);
    }

    /** Bytes that cannot be decoded are refused, and leave the state alone. */
    method Restore(image: Image) returns (ok: bool)
      modifies this
      ensures ok == !image.Undecodable?
      ensures state == RestoredOn(old(state), image)
      ensures image.Encoded? ==> state == image.store
      ensures image.NoBytes? ==> state == map[]
      ensures image.Undecodable? ==> state == old(state)
    {
      match image {
        case NoBytes => state := map[];
        case Encoded(store) => state := store;
        case Undecodable => return false;
      }
      return true;
    }
  }

  function RestoredOn(s: Store, image: Image): Store {
    match image
    case NoBytes => map[]
    case Encoded(store) => store
    case Undecodable => s
  }
}
