/*
 * The protocol-name table of util-proto-name.c: the loader that reads the
 * system's protocols file line by line into `known_proto`, the validity
 * query, and the clean-up pass.
 *
 * The file is given as the sequence of chunks `fgets` returns (each keeps
 * its trailing '\n'); the table is 256 optional names.
 */
module ProtoName {
  import opened Results
  import opened CString

  /** Number of slots of `known_proto` (indices 0 .. 255). */
  const TableSize: nat := 256

  /** The loader skips protocol numbers from this one up. */
  const FirstSkipped: int := 255

  // ---------------------------------------------------------------------
  // strtok_r with the delimiters " \t"
  // ---------------------------------------------------------------------

  predicate IsDelim(c: char) {
    c == ' ' || c == '\t'
  }

  /** First index at or after `i` that is not a delimiter. */
  function SkipDelims(s: string, i: nat): (j: nat)
    requires i <= |s|
    ensures i <= j <= |s|
    ensures forall k :: i <= k < j ==> IsDelim(s[k])
    ensures j < |s| ==> !IsDelim(s[j])
    decreases |s| - i
  {
    if i == |s| || !IsDelim(s[i]) then i else SkipDelims(s, i + 1)
  }

  /** First index at or after `i` that is a delimiter (or the end). */
  function TokenEnd(s: string, i: nat): (j: nat)
    requires i <= |s|
    ensures i <= j <= |s|
    ensures forall k :: i <= k < j ==> !IsDelim(s[k])
    ensures j < |s| ==> IsDelim(s[j])
    decreases |s| - i
  {
    if i == |s| || IsDelim(s[i]) then i else TokenEnd(s, i + 1)
  }

  /** A token `strtok_r` returned and where its saved cursor now points. */
  datatype Token = Token(text: string, next: nat)

  /** One call of `strtok_r` whose saved cursor is at `i`: leading
      delimiters are skipped; with nothing left there is no token; otherwise
      the token runs to the next delimiter, which is overwritten by the
      terminator, and the cursor moves past it. */
  function StrTok(s: string, i: nat): (r: Option<Token>)
    requires i <= |s|
    ensures r.Some? ==> i < r.value.next <= |s| && r.value.text != []
    ensures r.Some? ==> forall k :: 0 <= k < |r.value.text| ==> !IsDelim(r.value.text[k])
  {
    var b := SkipDelims(s, i);
    if b == |s| then None
    else
      var e := TokenEnd(s, b);
      Some(Token(s[b..e], if e < |s| then e + 1 else e))
  }

  /** All the tokens successive `strtok_r` calls return from cursor `i`. */
  function Tokens(s: string, i: nat): seq<string>
    requires i <= |s|
    decreases |s| - i
  {
    match StrTok(s, i)
    case None => []
    case Some(t) => [t.text] + Tokens(s, t.next)
  }

  /** The pieces of `s[i..]` between delimiters, empty ones included. */
  function SplitFrom(s: string, i: nat): (r: seq<string>)
    requires i <= |s|
    ensures |r| >= 1
    decreases |s| - i
  {
    if i == |s| then [[]]
    else
      var p := SplitFrom(s, i + 1);
      if IsDelim(s[i]) then [[]] + p else [[s[i]] + p[0]] + p[1..]
  }

  function NonEmpty(p: seq<string>): seq<string> {
    if p == [] then [] else (if p[0] == [] then [] else [p[0]]) + NonEmpty(p[1..])
  }

  /** The fields of `s[i..]`: its non-empty pieces between blanks and tabs. */
  function FieldsAt(s: string, i: nat): seq<string>
    requires i <= |s|
  {
    NonEmpty(SplitFrom(s, i))
  }

  /** The fields of a line. */
  function Fields(s: string): seq<string> {
    FieldsAt(s, 0)
  }

  lemma NonEmptyCons(w: string, p: seq<string>)
    ensures NonEmpty([w] + p) == (if w == [] then [] else [w]) + NonEmpty(p)
  {
    assert ([w] + p)[1..] == p;
  }

  /** The run of non-delimiters from `i` extends the first piece. */
  lemma {:induction false} SplitRun(s: string, i: nat)
    requires i <= |s|
    ensures var e := TokenEnd(s, i);
      && SplitFrom(s, i)[0] == s[i..e] + SplitFrom(s, e)[0]
      && SplitFrom(s, i)[1..] == SplitFrom(s, e)[1..]
    decreases |s| - i
  {
    var e := TokenEnd(s, i);
    if i < |s| && !IsDelim(s[i]) {
      SplitRun(s, i + 1);
      var p := SplitFrom(s, i + 1);
      assert SplitFrom(s, i) == [[s[i]] + p[0]] + p[1..];
      assert s[i..e] == [s[i]] + s[i + 1..e];
    } else {
      assert s[i..e] == [];
    }
  }

  /** Skipping leading delimiters does not change the fields. */
  lemma {:induction false} FieldsSkipDelims(s: string, i: nat)
    requires i <= |s|
    ensures FieldsAt(s, i) == FieldsAt(s, SkipDelims(s, i))
    decreases |s| - i
  {
    if i < |s| && IsDelim(s[i]) {
      NonEmptyCons([], SplitFrom(s, i + 1));
      FieldsSkipDelims(s, i + 1);
    }
  }

  /** A token starting at `b` is the first field, and the rest of the fields
      start after its terminator. */
  lemma FieldsAtToken(s: string, b: nat)
    requires b < |s| && !IsDelim(s[b])
    ensures var e := TokenEnd(s, b);
      FieldsAt(s, b) == [s[b..e]] + FieldsAt(s, if e < |s| then e + 1 else e)
  {
    var e := TokenEnd(s, b);
    SplitRun(s, b);
    var rest := if e < |s| then SplitFrom(s, e + 1) else [];
    assert SplitFrom(s, e) == [[]] + rest;
    assert s[b..e] + [] == s[b..e];
    assert SplitFrom(s, b) == [s[b..e]] + rest;
    NonEmptyCons(s[b..e], rest);
  }

  /** The fields from `i` on: none when only delimiters are left, else the
      token `strtok_r` returns followed by the fields after it. */
  lemma FieldsStep(s: string, i: nat)
    requires i <= |s|
    ensures StrTok(s, i).None? ==> FieldsAt(s, i) == []
    ensures StrTok(s, i).Some? ==>
      FieldsAt(s, i) == [StrTok(s, i).value.text] + FieldsAt(s, StrTok(s, i).value.next)
  {
    var b := SkipDelims(s, i);
    FieldsSkipDelims(s, i);
    if b < |s| {
      FieldsAtToken(s, b);
    } else {
      var none: seq<string> := [];
      NonEmptyCons([], none);
      assert SplitFrom(s, b) == [[]] + none;
    }
  }

  /** `strtok_r` called repeatedly from cursor `i` returns exactly the fields
      of the rest of the line, in order. */
  lemma {:induction false} TokensAreFields(s: string, i: nat)
    requires i <= |s|
    ensures Tokens(s, i) == FieldsAt(s, i)
    decreases |s| - i
  {
    FieldsStep(s, i);
    if StrTok(s, i).Some? {
      TokensAreFields(s, StrTok(s, i).value.next);
    }
  }

  // ---------------------------------------------------------------------
  // One line of the protocols file
  // ---------------------------------------------------------------------

  /** What a line asks to store: `name` at slot `proto`. */
  datatype ProtoEntry = ProtoEntry(proto: int, name: string)

  /** The body of `SCProtoNameInit`'s loop AS WRITTEN: comment lines and
      lines with fewer than two fields are skipped, as are numbers from 255
      up; the third field (the alias), or else the first, is stored. The
      guard lets a negative number through. */
  function LineEntryAsWritten(line: string): (r: Option<ProtoEntry>)
    ensures |line| > 0 && line[0] == '#' ==> r.None?
    ensures r.Some? ==> r.value.proto < FirstSkipped && r.value.name != []
  {
    if |line| > 0 && line[0] == '#' then None
    else match StrTok(line, 0)
      case None => None
      case Some(name) =>
        match StrTok(line, name.next)
        case None => None
        case Some(protoCh) =>
          var proto := Atoi(protoCh.text);
          if proto >= FirstSkipped then None
          else match StrTok(line, protoCh.next)
            case Some(cname) => Some(ProtoEntry(proto, cname.text))
            case None => Some(ProtoEntry(proto, name.text))
  }

  /** The same line with the guard the table's bounds call for: numbers
      below 0 are skipped like those from 255 up. */
  function LineEntry(line: string): (r: Option<ProtoEntry>)
    ensures r.Some? ==> 0 <= r.value.proto < FirstSkipped
    ensures r.Some? ==> r.value.name != []
  {
    match LineEntryAsWritten(line)
    case None => None
    case Some(e) => if e.proto < 0 then None else Some(e)
  }

  /** The line, read through its fields: a comment or a line of fewer than
      two fields stores nothing; otherwise the second field is the number
      and the third field, or else the first, is the name. */
  lemma LineEntryByFields(line: string)
    ensures var f := Fields(line);
      LineEntryAsWritten(line) ==
        if |line| > 0 && line[0] == '#' then None
        else if |f| < 2 || Atoi(f[1]) >= FirstSkipped then None
        else Some(ProtoEntry(Atoi(f[1]), if |f| >= 3 then f[2] else f[0]))
  {
    TokensAreFields(line, 0);
    var f := Fields(line);
    match StrTok(line, 0)
    case None =>
    case Some(name) =>
      assert f[0] == name.text && f[1..] == Tokens(line, name.next);
      match StrTok(line, name.next)
      case None =>
      case Some(protoCh) =>
        assert f[1] == protoCh.text && f[2..] == Tokens(line, protoCh.next);
        match StrTok(line, protoCh.next)
        case None =>
        case Some(cname) =>
          assert f[2] == cname.text;
  }

  /** The line stores a name at slot `p`. */
  predicate Defines(line: string, p: int) {
    LineEntry(line).Some? && LineEntry(line).value.proto == p
  }

  // ---------------------------------------------------------------------
  // The table as a value
  // ---------------------------------------------------------------------

  function EmptyTable(): (t: seq<Option<string>>)
    ensures |t| == TableSize && forall p :: 0 <= p < TableSize ==> t[p].None?
  {
    seq(TableSize, _ => None)
  }

  /** The table after one line. */
  function Store(t: seq<Option<string>>, line: string): seq<Option<string>>
    requires |t| == TableSize
  {
    match LineEntry(line)
    case None => t
    case Some(e) => t[e.proto := Some(e.name)]
  }

  /** The table after the lines, in order. */
  function Load(t: seq<Option<string>>, lines: seq<string>): (r: seq<Option<string>>)
    requires |t| == TableSize
    ensures |r| == TableSize
  {
    if lines == [] then t else Store(Load(t, lines[..|lines| - 1]), lines[|lines| - 1])
  }

  /** `SCProtoNameValid` on a table: the number is at most 255 and has a
      name. */
  predicate NameValidIn(t: seq<Option<string>>, proto: int)
    requires |t| == TableSize
  {
    0 <= proto <= 255 && t[proto].Some?
  }

  /** One line read through its fields: a comment line, a line of fewer than
      two fields, or a number below 0 or from 255 up leaves the table as it
      was; otherwise the alias, or else the name, lands at the number's slot,
      replacing what was there. */
  lemma StoreByFields(t: seq<Option<string>>, line: string)
    requires |t| == TableSize
    ensures var f := Fields(line);
      Store(t, line) ==
        if (|line| > 0 && line[0] == '#') || |f| < 2 || Atoi(f[1]) < 0 || Atoi(f[1]) >= FirstSkipped then t
        else t[Atoi(f[1]) := Some(if |f| >= 3 then f[2] else f[0])]
  {
    LineEntryByFields(line);
  }

  /** One line changes only the slot it defines. */
  lemma StoreSlot(t: seq<Option<string>>, line: string, p: nat)
    requires |t| == TableSize && p < TableSize
    ensures Store(t, line)[p] == if Defines(line, p) then Some(LineEntry(line).value.name) else t[p]
  {
  }

  /** A slot no line defines keeps what it held. */
  lemma {:induction false} UndefinedSlotKept(t: seq<Option<string>>, lines: seq<string>, p: nat)
    requires |t| == TableSize && p < TableSize
    requires forall k :: 0 <= k < |lines| ==> !Defines(lines[k], p)
    ensures Load(t, lines)[p] == t[p]
  {
    if lines != [] {
      var prefix := lines[..|lines| - 1];
      assert forall k :: 0 <= k < |prefix| ==> prefix[k] == lines[k];
      UndefinedSlotKept(t, prefix, p);
    }
  }

  /** A slot holds the name given by the last line that defines it: a later
      line with the same number overwrites an earlier one. */
  lemma {:induction false} LastDefinitionWins(t: seq<Option<string>>, lines: seq<string>, p: nat, k: nat)
    requires |t| == TableSize && p < TableSize
    requires k < |lines| && Defines(lines[k], p)
    requires forall k' :: k < k' < |lines| ==> !Defines(lines[k'], p)
    ensures Load(t, lines)[p] == Some(LineEntry(lines[k]).value.name)
  {
    var last := |lines| - 1;
    var prefix := lines[..last];
    if k < last {
      assert prefix[k] == lines[k];
      assert forall k' :: k < k' < last ==> prefix[k'] == lines[k'];
      LastDefinitionWins(t, prefix, p, k);
    }
  }

  /** The loader never writes slot 255. */
  lemma Slot255Untouched(t: seq<Option<string>>, lines: seq<string>)
    requires |t| == TableSize
    ensures Load(t, lines)[255] == t[255]
  {
    UndefinedSlotKept(t, lines, 255);
  }

  /** A slot holds a name after loading exactly when it held one before or
      some line defines it. */
  lemma {:induction false} DefinedSlots(t: seq<Option<string>>, lines: seq<string>, p: nat)
    requires |t| == TableSize && p < TableSize
    ensures Load(t, lines)[p].Some? <==> t[p].Some? || DefinedIn(lines, p)
  {
    if lines != [] {
      var last := |lines| - 1;
      DefinedSlots(t, lines[..last], p);
      StoreSlot(Load(t, lines[..last]), lines[last], p);
      SomeLineDefines(lines, p);
    }
  }

  /** Some line of `lines` defines `p`. */
  predicate DefinedIn(lines: seq<string>, p: int) {
    exists k :: 0 <= k < |lines| && Defines(lines[k], p)
  }

  /** Some line defines `p` exactly when some line before the last does or
      the last one does. */
  lemma SomeLineDefines(lines: seq<string>, p: nat)
    requires lines != []
    ensures DefinedIn(lines, p) <==> DefinedIn(lines[..|lines| - 1], p) || Defines(lines[|lines| - 1], p)
  {
    var prefix := lines[..|lines| - 1];
    if exists k :: 0 <= k < |lines| && Defines(lines[k], p) {
      var k :| 0 <= k < |lines| && Defines(lines[k], p);
      if k < |lines| - 1 {
        assert prefix[k] == lines[k];
      }
    }
    if exists k :: 0 <= k < |prefix| && Defines(prefix[k], p) {
      var k :| 0 <= k < |prefix| && Defines(prefix[k], p);
      assert lines[k] == prefix[k];
    }
  }

  /** Loaded from an empty table, a number is valid exactly when some line
      defines it; 255 never is. */
  lemma ValidIffDefined(lines: seq<string>, p: int)
    ensures NameValidIn(Load(EmptyTable(), lines), p) <==>
      exists k :: 0 <= k < |lines| && Defines(lines[k], p)
    ensures !NameValidIn(Load(EmptyTable(), lines), 255)
  {
    Slot255Untouched(EmptyTable(), lines);
    if 0 <= p < TableSize {
      DefinedSlots(EmptyTable(), lines, p);
    }
  }

  /** Everything loaded from an empty table lies below 255, so the clean-up
      pass over 0 .. 254 reaches every stored name. */
  lemma LoadedSlotsBelow255(lines: seq<string>, p: nat)
    requires p < TableSize && Load(EmptyTable(), lines)[p].Some?
    ensures p < FirstSkipped
  {
    Slot255Untouched(EmptyTable(), lines);
  }

  // ---------------------------------------------------------------------
  // Behaviour of particular lines
  // ---------------------------------------------------------------------

  lemma {:induction false} SkipDelimsTo(s: string, i: nat, b: nat)
    requires i <= b < |s| && !IsDelim(s[b])
    requires forall k :: i <= k < b ==> IsDelim(s[k])
    ensures SkipDelims(s, i) == b
    decreases b - i
  {
    if i < b {
      SkipDelimsTo(s, i + 1, b);
    }
  }

  lemma {:induction false} TokenEndAt(s: string, b: nat, e: nat)
    requires b <= e <= |s| && (e < |s| ==> IsDelim(s[e]))
    requires forall k :: b <= k < e ==> !IsDelim(s[k])
    ensures TokenEnd(s, b) == e
    decreases e - b
  {
    if b < e {
      TokenEndAt(s, b + 1, e);
    }
  }

  /** `strtok_r` from `i` returns the token `s[b..e]` when `s[i..b]` are
      delimiters, `s[b..e]` none, and `e` ends the line or is a delimiter. */
  lemma TokenAt(s: string, i: nat, b: nat, e: nat)
    requires i <= b < e <= |s|
    requires forall k :: i <= k < b ==> IsDelim(s[k])
    requires forall k :: b <= k < e ==> !IsDelim(s[k])
    requires e < |s| ==> IsDelim(s[e])
    ensures StrTok(s, i) == Some(Token(s[b..e], if e < |s| then e + 1 else e))
  {
    SkipDelimsTo(s, i, b);
    TokenEndAt(s, b, e);
  }

  /** `strtok_r` finds nothing once only delimiters are left. */
  lemma NoTokenAt(s: string, i: nat)
    requires i <= |s|
    requires forall k :: i <= k < |s| ==> IsDelim(s[k])
    ensures StrTok(s, i) == None
  {
  }

  /** The line's entry from the tokens `strtok_r` returns for it. */
  lemma EntryOfTokens(line: string, name: Token, protoCh: Token, cname: Option<Token>)
    requires line != [] && line[0] != '#'
    requires StrTok(line, 0) == Some(name)
    requires name.next <= |line| && StrTok(line, name.next) == Some(protoCh)
    requires protoCh.next <= |line| && StrTok(line, protoCh.next) == cname
    ensures LineEntryAsWritten(line) ==
      if Atoi(protoCh.text) >= FirstSkipped then None
      else Some(ProtoEntry(Atoi(protoCh.text), if cname.Some? then cname.value.text else name.text))
  {
  }

  /** A word: non-empty, with no blank or tab. */
  predicate IsWord(w: string) {
    w != [] && forall k :: 0 <= k < |w| ==> !IsDelim(w[k])
  }

  /** A token moved `n` places to the right. */
  function ShiftTok(r: Option<Token>, n: nat): Option<Token> {
    match r
    case None => None
    case Some(t) => Some(Token(t.text, n + t.next))
  }

  lemma {:induction false} SkipDelimsShift(p: string, s: string, i: nat)
    requires i <= |s|
    ensures SkipDelims(p + s, |p| + i) == |p| + SkipDelims(s, i)
    decreases |s| - i
  {
    if i < |s| {
      assert (p + s)[|p| + i] == s[i];
      if IsDelim(s[i]) {
        SkipDelimsShift(p, s, i + 1);
      }
    }
  }

  lemma {:induction false} TokenEndShift(p: string, s: string, i: nat)
    requires i <= |s|
    ensures TokenEnd(p + s, |p| + i) == |p| + TokenEnd(s, i)
    decreases |s| - i
  {
    if i < |s| {
      assert (p + s)[|p| + i] == s[i];
      if !IsDelim(s[i]) {
        TokenEndShift(p, s, i + 1);
      }
    }
  }

  /** `strtok_r` on `line == p + s` from a cursor inside `s` sees only `s`. */
  lemma StrTokShift(line: string, p: string, s: string, i: nat, j: nat)
    requires line == p + s && i <= |s| && j == |p| + i
    ensures StrTok(line, j) == ShiftTok(StrTok(s, i), |p|)
  {
    SkipDelimsShift(p, s, i);
    var b := SkipDelims(s, i);
    if b < |s| {
      TokenEndShift(p, s, b);
      var e := TokenEnd(s, b);
      assert forall k :: b <= k < e ==> line[|p| + k] == s[k];
      assert line[|p| + b..|p| + e] == s[b..e];
    }
  }

  /** A word followed by a blank is the first token, and the cursor moves
      past the blank. */
  lemma WordFirst(line: string, w: string, rest: string)
    requires IsWord(w) && line == w + " " + rest
    ensures StrTok(line, 0) == Some(Token(w, |w| + 1))
  {
    assert forall k :: 0 <= k < |w| ==> line[k] == w[k];
    assert line[|w|] == ' ';
    TokenAt(line, 0, 0, |w|);
    assert line[0..|w|] == w;
  }

  /** A word alone is one token that ends the line. */
  lemma WordWhole(w: string)
    requires IsWord(w)
    ensures StrTok(w, 0) == Some(Token(w, |w|))
  {
    TokenAt(w, 0, 0, |w|);
    assert w[0..|w|] == w;
  }

  /** Digits, and a word with a '\n' or a '-' added, are words. */
  lemma {:induction false} MoreWords(d: string, w: string)
    requires AllDigits(d) && d != [] && IsWord(w)
    ensures IsWord(d) && IsWord(w + "\n") && IsWord("-" + d + "\n")
  {
    assert forall k :: 0 <= k < |d| ==> IsDigit(d[k]);
    var t := "-" + d + "\n";
    assert forall k :: 1 <= k <= |d| ==> t[k] == d[k - 1];
    var v := w + "\n";
    assert forall k :: 0 <= k < |w| ==> v[k] == w[k];
  }

  /** The two tokens of `w + " " + rest` when both are words. */
  lemma TwoTokens(line: string, w: string, rest: string)
    requires IsWord(w) && IsWord(rest) && line == w + " " + rest
    ensures StrTok(line, 0) == Some(Token(w, |w| + 1))
    ensures StrTok(line, |w| + 1) == Some(Token(rest, |line|))
  {
    WordFirst(line, w, rest);
    WordWhole(rest);
    StrTokShift(line, w + " ", rest, 0, |w| + 1);
  }

  /** A line of two words: the second is the number and the first the name. */
  lemma {:induction false} TwoWordLine(name: string, t: string)
    requires IsWord(name) && name[0] != '#' && IsWord(t)
    ensures LineEntryAsWritten(name + " " + t) ==
      if Atoi(t) >= FirstSkipped then None else Some(ProtoEntry(Atoi(t), name))
  {
    var line := name + " " + t;
    TwoTokens(line, name, t);
    NoTokenAt(line, |line|);
    EntryOfTokens(line, Token(name, |name| + 1), Token(t, |line|), None);
  }

  lemma Regroup(a: string, b: string, c: string)
    ensures a + " " + b + " " + c == a + " " + (b + " " + c)
  {
  }

  /** The three tokens of a line of three words. */
  lemma ThreeTokens(line: string, name: string, r: string, d: string, alias: string)
    requires IsWord(name) && IsWord(d) && IsWord(alias)
    requires r == d + " " + alias && line == name + " " + r
    ensures StrTok(line, 0) == Some(Token(name, |name| + 1))
    ensures StrTok(line, |name| + 1) == Some(Token(d, |name| + |d| + 2))
    ensures StrTok(line, |name| + |d| + 2) == Some(Token(alias, |line|))
  {
    var p := name + " ";
    WordFirst(line, name, r);
    TwoTokens(r, d, alias);
    StrTokShift(line, p, r, 0, |p|);
    StrTokShift(line, p, r, |d| + 1, |p| + |d| + 1);
  }

  /** A line of three words: name, number and alias. */
  lemma {:induction false} ThreeWordLine(name: string, d: string, alias: string)
    requires IsWord(name) && name[0] != '#' && IsWord(d) && IsWord(alias)
    ensures LineEntryAsWritten(name + " " + d + " " + alias) ==
      if Atoi(d) >= FirstSkipped then None else Some(ProtoEntry(Atoi(d), alias))
  {
    var line := name + " " + d + " " + alias;
    var r := d + " " + alias;
    Regroup(name, d, alias);
    ThreeTokens(line, name, r, d, alias);
    EntryOfTokens(line, Token(name, |name| + 1), Token(d, |name| + |d| + 2), Some(Token(alias, |line|)));
  }

  /** The alias is stored with the line's '\n' when nothing follows it:
      "tcp 6 TCP\n" stores "TCP\n" at slot 6. */
  lemma {:induction false} AliasKeepsNewline(name: string, n: nat, alias: string)
    requires IsWord(name) && name[0] != '#' && IsWord(alias) && n < 255
    ensures LineEntry(name + " " + Decimal(n) + " " + alias + "\n") == Some(ProtoEntry(n, alias + "\n"))
  {
    var d := Decimal(n);
    AtoiDecimal(n);
    MoreWords(d, alias);
    ThreeWordLine(name, d, alias + "\n");
    assert name + " " + d + " " + alias + "\n" == name + " " + d + " " + (alias + "\n");
  }

  /** A line with a blank after the name reads the '\n' as the number, which
      `atoi` takes as 0: "foo \n" stores "foo" at slot 0. */
  lemma {:induction false} TrailingBlankStoresAtZero(name: string)
    requires IsWord(name) && name[0] != '#'
    ensures LineEntry(name + " \n") == Some(ProtoEntry(0, name))
  {
    StrToLNoDigits("\n");
    TwoWordLine(name, "\n");
    assert name + " \n" == name + " " + "\n";
  }

  /** As written, a number that `atoi` reads as negative passes the `>= 255`
      guard, so the loop would store at a negative index, outside
      `known_proto`: with `NegativeWord`, "x -1\n" asks for slot -1. With the
      corrected guard the line stores nothing. */
  lemma {:induction false} NegativeNumberPassesGuard(name: string, t: string, v: int)
    requires IsWord(name) && name[0] != '#' && IsWord(t) && Atoi(t) == v < 0
    ensures LineEntryAsWritten(name + " " + t) == Some(ProtoEntry(v, name))
    ensures LineEntry(name + " " + t) == None
  {
    TwoWordLine(name, t);
  }

  /** "-" followed by the digits of a positive `n` and '\n' is a word that
      `atoi` reads as -n. */
  lemma {:induction false} NegativeWord(n: nat)
    requires n > 0
    ensures IsWord("-" + Decimal(n) + "\n") && Atoi("-" + Decimal(n) + "\n") == -(n as int)
  {
    var d := Decimal(n);
    MoreWords(d, "x");
    StrToLNegated(n, "\n");
  }

  // ---------------------------------------------------------------------
  // The table in place
  // ---------------------------------------------------------------------

  /** `known_proto`: one optional name per protocol number. */
  class ProtoNameTable {
    const knownProto: array<Option<string>>

    predicate Valid()
      reads this
    {
      knownProto.Length == TableSize
    }

    /** The zero-initialised global: no name anywhere. */
    constructor()
      ensures Valid() && fresh(knownProto)
      ensures knownProto[..] == EmptyTable()
    {
      knownProto := new Option<string>[TableSize](_ => None);
    }

    /** `SCProtoNameInit` over the lines of the protocols file, with the
        negative-number guard. */
    method Init(lines: seq<string>)
      requires Valid()
      modifies knownProto
      ensures Valid()
      ensures knownProto[..] == Load(old(knownProto[..]), lines)
    {
      ghost var t0 := knownProto[..];
      for k := 0 to |lines|
        invariant knownProto[..] == Load(t0, lines[..k])
      {
        assert lines[..k + 1][..k] == lines[..k];
        var line := lines[k];
        if |line| > 0 && line[0] == '#' {
          continue;
        }
        var name := StrTok(line, 0);
        if name.None? {
          continue;
        }
        var protoCh := StrTok(line, name.value.next);
        if protoCh.None? {
          continue;
        }
        var proto := Atoi(protoCh.value.text);
        if proto < 0 || proto >= FirstSkipped {
          continue;
        }
        var cname := StrTok(line, protoCh.value.next);
        if cname.Some? {
          knownProto[proto] := Some(cname.value.text);
        } else {
          knownProto[proto] := Some(name.value.text);
        }
      }
      assert lines[..|lines|] == lines;
    }

    /** `SCProtoNameValid`. */
    function NameValid(proto: int): (r: bool)
      requires Valid() && 0 <= proto < 0x1_0000
      reads this, knownProto
      ensures r <==> NameValidIn(knownProto[..], proto)
    {
      proto <= 255 && knownProto[proto].Some?
    }

    /** `SCProtoNameDeInit`: the slots whose names are freed, in the order the
        loop visits them. The slots keep their pointers. */
    method DeInit() returns (freed: seq<nat>)
      requires Valid()
      ensures forall p: nat :: p in freed <==> p < FirstSkipped && knownProto[p].Some?
      ensures forall a, b :: 0 <= a < b < |freed| ==> freed[a] < freed[b]
    {
      freed := [];
      var cnt := 0;
      while cnt < FirstSkipped
        invariant 0 <= cnt <= FirstSkipped
        invariant forall p: nat :: p in freed <==> p < cnt && knownProto[p].Some?
        invariant forall a, b :: 0 <= a < b < |freed| ==> freed[a] < freed[b]
        invariant forall a :: 0 <= a < |freed| ==> freed[a] < cnt
      {
        if knownProto[cnt].Some? {
          freed := freed + [cnt];
        }
        cnt := cnt + 1;
      }
    }
  }
}
