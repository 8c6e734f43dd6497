/** The string logic of the Lua console's autocompletion
    (Source/lua/autocomplete.cpp): the last token before the cursor, the
    signature rewrite for `__call` metamethods, the character classes, the
    filter and the text of a suggestion, the cap on one table's
    suggestions, the early exits, and the sorted result.

    The Lua state is not modelled. A table is the sequence of its entries
    in the order sol iterates them, each with what GetValueInfo (or
    GetValueInfoForUserdata) would report for it, plus the table its
    metatable falls back to. The walk along a dotted path (SplitByChar and
    the lookups) is a parameter of the environment. */
module Autocomplete {

  datatype Option<T> = None | Some(value: T)

  // ---------------------------------------------------------------------
  // Character classes

  predicate IsAlnum(c: char)
  {
    ('a' <= c <= 'z') || ('A' <= c <= 'Z') || ('0' <= c <= '9')
  }

  predicate IsIdentifierChar(c: char)
  {
    IsAlnum(c) || c == '_'
  }

  predicate IsIdentifierOrExprChar(c: char)
  {
    IsIdentifierChar(c) || c == '-' || c == '+' || c == '*' || c == '/' || c == '='
  }

  /** The characters listed one by one. */
  const Lowercase: set<char> := {'a', 'b', 'c', 'd', 'e', 'f', 'g', 'h', 'i', 'j', 'k', 'l', 'm', 'n', 'o', 'p', 'q', 'r', 's', 't', 'u', 'v', 'w', 'x', 'y', 'z'}
  const Uppercase: set<char> := {'A', 'B', 'C', 'D', 'E', 'F', 'G', 'H', 'I', 'J', 'K', 'L', 'M', 'N', 'O', 'P', 'Q', 'R', 'S', 'T', 'U', 'V', 'W', 'X', 'Y', 'Z'}
  const Digits: set<char> := {'0', '1', '2', '3', '4', '5', '6', '7', '8', '9'}

  lemma LowercaseExactly(c: char)
    ensures 'a' <= c <= 'z' <==> c in Lowercase
  {
  }

  lemma UppercaseExactly(c: char)
    ensures 'A' <= c <= 'Z' <==> c in Uppercase
  {
  }

  lemma DigitsExactly(c: char)
    ensures '0' <= c <= '9' <==> c in Digits
  {
  }

  /** IsIdentifierChar holds exactly for the ASCII letters, the digits and
      the underscore. */
  lemma {:induction false} IdentifierCharExactly(c: char)
    ensures IsIdentifierChar(c) <==> c in Lowercase + Uppercase + Digits + {'_'}
  {
    LowercaseExactly(c);
    UppercaseExactly(c);
    DigitsExactly(c);
  }

  /** IsIdentifierOrExprChar holds exactly for those and - + * / =. */
  lemma {:induction false} ExprCharExactly(c: char)
    ensures IsIdentifierOrExprChar(c) <==> c in Lowercase + Uppercase + Digits + {'_', '-', '+', '*', '/', '='}
  {
    IdentifierCharExactly(c);
  }

  /** None of them holds a character a token or a path breaks at. */
  lemma BreaksAreNotExprChars(c: char)
    ensures c in " (,.:" ==> !IsIdentifierOrExprChar(c)
  {
  }

  // ---------------------------------------------------------------------
  // GetLastToken

  /** The characters a token ends at. */
  predicate IsTokenBreak(c: char)
  {
    c == ' ' || c == '(' || c == ','
  }

  /** The last token, taken back from the end one character at a time:
      a suffix of the text. */
  function LastToken(text: string): (t: string)
    ensures |t| <= |text| && t == text[|text| - |t|..]
  {
    if text == [] || IsTokenBreak(text[|text| - 1]) then []
    else
      var init := text[..|text| - 1];
      var t0 := LastToken(init);
      assert text[|text| - |t0| - 1..] == init[|init| - |t0|..] + [text[|text| - 1]];
      t0 + [text[|text| - 1]]
  }

  /** LastToken holds no space, '(' or ','. */
  lemma {:induction false} LastTokenUnbroken(text: string)
    ensures forall k :: 0 <= k < |LastToken(text)| ==> !IsTokenBreak(LastToken(text)[k])
  {
    if text != [] && !IsTokenBreak(text[|text| - 1]) {
      LastTokenUnbroken(text[..|text| - 1]);
    }
  }

  /** LastToken is the longest such suffix: it starts the text or follows
      a break. */
  lemma {:induction false} LastTokenLongest(text: string)
    ensures |LastToken(text)| < |text| ==> IsTokenBreak(text[|text| - |LastToken(text)| - 1])
  {
    if text != [] && !IsTokenBreak(text[|text| - 1]) {
      var init := text[..|text| - 1];
      LastTokenLongest(init);
      var t0 := LastToken(init);
      assert LastToken(text) == t0 + [text[|text| - 1]];
      if |t0| < |init| {
        var k := |init| - |t0| - 1;
        assert |text| - |LastToken(text)| - 1 == k;
        assert text[k] == init[k];
      }
    }
  }

  /** Any suffix without a break that starts the text or follows a break
      is LastToken. */
  lemma {:induction false} LastTokenUnique(text: string, i: nat)
    requires i <= |text| && (forall k :: i <= k < |text| ==> !IsTokenBreak(text[k]))
    requires i == 0 || IsTokenBreak(text[i - 1])
    ensures LastToken(text) == text[i..]
    decreases |text|
  {
    if i < |text| {
      var init := text[..|text| - 1];
      LastTokenUnique(init, i);
      assert text[i..] == init[i..] + [text[|text| - 1]];
    }
  }

  /** GetLastToken: the index walks back from the end while the character
      before it is not a break. The empty text gives the empty token. */
  method GetLastToken(text: string) returns (token: string)
    ensures token == LastToken(text)
    ensures forall k :: 0 <= k < |token| ==> !IsTokenBreak(token[k])
    ensures |token| < |text| ==> IsTokenBreak(text[|text| - |token| - 1])
    ensures text == [] ==> token == []
  {
    if text == [] {
      return [];
    }
    var i := |text|;
    while i > 0 && !IsTokenBreak(text[i - 1])
      invariant 0 <= i <= |text|
      invariant forall k :: i <= k < |text| ==> !IsTokenBreak(text[k])
    {
      i := i - 1;
    }
    token := text[i..];
    LastTokenUnique(text, i);
    LastTokenUnbroken(text);
  }

  // ---------------------------------------------------------------------
  // Searching a string

  /** find_first_of: the first index holding one of cs, or -1 (npos). */
  function FirstOf(s: string, cs: set<char>): (k: int)
    ensures -1 <= k < |s|
    ensures k >= 0 ==> s[k] in cs && forall j :: 0 <= j < k ==> s[j] !in cs
    ensures k < 0 ==> forall j :: 0 <= j < |s| ==> s[j] !in cs
  {
    if s == [] then -1
    else if s[0] in cs then 0
    else
      var k := FirstOf(s[1..], cs);
      if k < 0 then -1 else k + 1
  }

  /** find_last_of: the last index holding one of cs, or -1 (npos). */
  function LastOf(s: string, cs: set<char>): (k: int)
    ensures -1 <= k < |s|
    ensures k >= 0 ==> s[k] in cs && forall j :: k < j < |s| ==> s[j] !in cs
    ensures k < 0 ==> forall j :: 0 <= j < |s| ==> s[j] !in cs
  {
    if s == [] then -1
    else if s[|s| - 1] in cs then |s| - 1
    else LastOf(s[..|s| - 1], cs)
  }

  // ---------------------------------------------------------------------
  // RemoveFirstArgumentFromFunctionSignature

  /** The signature of a `__call` metamethod without its first parameter,
      the table it is called on: "(...)" and a signature with no ',' or
      ')' stay as they are; when the first ',' or ')' ends the signature
      it becomes "()"; otherwise everything up to that character, and one
      space after it, becomes "(". */
  method RemoveFirstArgument(signature: string) returns (result: string)
    ensures signature == "(...)" ==> result == signature
    ensures (forall j :: 0 <= j < |signature| ==> signature[j] != ',' && signature[j] != ')') ==> result == signature
    ensures forall k :: 0 <= k < |signature| && (signature[k] == ',' || signature[k] == ')') &&
                        (forall j :: 0 <= j < k ==> signature[j] != ',' && signature[j] != ')') && signature != "(...)" ==>
              if k + 1 == |signature| then result == "()"
              else result == "(" + signature[if signature[k + 1] == ' ' then k + 2 else k + 1..]
  {
    if signature == "(...)" {
      return signature;
    }
    var firstArgEnd := FirstOf(signature, {',', ')'});
    if firstArgEnd < 0 {
      return signature;
    }
    firstArgEnd := firstArgEnd + 1;
    if firstArgEnd == |signature| {
      return "()";
    }
    if signature[firstArgEnd] == ' ' {
      firstArgEnd := firstArgEnd + 1;
    }
    result := "(" + signature[firstArgEnd..];
  }

  // ---------------------------------------------------------------------
  // Tables and suggestions

  /** What GetLuaUserdataMemberType reports of a userdata member. */
  datatype MemberType = MemberFunction | MemberVariable | MemberProperty

  /** One key of a table: the key if it is a string; whether the value is
      a function; the member type when the table is a userdata's
      metatable; and what the value-info getter gives for it. */
  datatype Entry = Entry(key: Option<string>, isFunction: bool, memberType: Option<MemberType>,
                         callable: bool, signature: string, docstring: string)

  /** A table's entries in iteration order and the table its metatable
      holds, if that is a table. */
  datatype Table = Table(entries: seq<Entry>, fallback: Option<Table>)

  /** A query for a userdata's members: whether they were asked for with
      ':'. */
  datatype Query = Query(colonAccess: bool)

  /** A LuaAutocompleteSuggestion: the text shown, the text inserted and
      where the cursor goes after it. */
  datatype Suggestion = Suggestion(displayText: string, completionText: string, cursorAdjust: int)

  /** The glyphs of sol's internal keys. */
  const Recycle: char := '♻'
  const Radioactive: char := '☢'
  const Nut: char := '\U{1F529}'

  predicate StartsWith(s: string, p: string)
  {
    |p| <= |s| && s[..|p|] == p
  }

  /** The key filter: a string key strictly longer than the prefix and
      starting with it, not a "__" key unless the prefix is one, with no
      sol glyph. */
  predicate KeyShown(key: Option<string>, prefix: string)
  {
    key.Some? && StartsWith(key.value, prefix) && |key.value| != |prefix| &&
    !(StartsWith(key.value, "__") && !StartsWith(prefix, "__")) &&
    Recycle !in key.value && Radioactive !in key.value && Nut !in key.value
  }

  /** A userdata member wants ':' if it is a member function, or, with no
      member type, if its value is a function. */
  predicate RequiresColon(e: Entry)
  {
    if e.memberType.Some? then e.memberType.value == MemberFunction else e.isFunction
  }

  /** An entry is suggested: its key passes, and for a userdata query it is
      asked for with ':' exactly when it wants ':'. */
  predicate Passes(e: Entry, prefix: string, q: Option<Query>)
  {
    KeyShown(e.key, prefix) && (q.None? || q.value.colonAccess == RequiresColon(e))
  }

  /** The docstring up to its first newline. */
  function FirstLine(doc: string): (line: string)
    ensures StartsWith(doc, line) && '\n' !in line
    ensures '\n' !in doc ==> line == doc
    ensures |line| < |doc| ==> doc[|line|] == '\n'
  {
    var k := FirstOf(doc, {'\n'});
    if k < 0 then doc else doc[..k]
  }

  /** The suggestion for an entry: the key minus the prefix to insert,
      with "()" and the cursor one back for a callable; the key, its
      signature (after ": " for a userdata member that is not a member
      function) and " - " with the docstring's first line to show. */
  function Suggest(e: Entry, prefix: string, q: Option<Query>): Suggestion
    requires Passes(e, prefix, q)
  {
    var key := e.key.value;
    var completion := key[|prefix|..] + (if e.callable then "()" else "");
    var sig := if e.signature == [] then []
               else (if q.Some? && e.memberType.Some? && e.memberType.value != MemberFunction then ": " else "") + e.signature;
    var doc := if e.docstring == [] then [] else " - " + FirstLine(e.docstring);
    Suggestion(key + sig + doc, completion, if e.callable then -1 else 0)
  }

  /** What a suggestion says of its entry: the inserted text completes the
      key, and the shown text starts with the key. */
  lemma {:induction false} SuggestText(e: Entry, prefix: string, q: Option<Query>)
    requires Passes(e, prefix, q)
    ensures var s := Suggest(e, prefix, q);
            prefix + s.completionText == e.key.value + (if e.callable then "()" else "") &&
            StartsWith(s.displayText, e.key.value) && 0 < |s.completionText| &&
            (s.cursorAdjust == -1 <==> e.callable) &&
            (e.signature == [] && e.docstring == [] ==> s.displayText == e.key.value)
  {
    var key := e.key.value;
    assert prefix + key[|prefix|..] == key by {
      assert key[..|prefix|] == prefix;
    }
    var s := Suggest(e, prefix, q);
    assert s.displayText[..|key|] == key;
  }

  // ---------------------------------------------------------------------
  // SuggestionsFromTable

  /** The loop over a table's entries, into the set out: each passing
      entry's suggestion is inserted, and the loop stops when the set has
      exactly max elements after an insertion. */
  function FromEntries(es: seq<Entry>, prefix: string, max: nat, out: set<Suggestion>, q: Option<Query>): set<Suggestion>
  {
    if es == [] then out
    else if !Passes(es[0], prefix, q) then FromEntries(es[1..], prefix, max, out, q)
    else
      var out1 := out + {Suggest(es[0], prefix, q)};
      if |out1| == max then out1 else FromEntries(es[1..], prefix, max, out1, q)
  }

  /** The table's entries, then its fallback's with no userdata query. */
  function FromTable(t: Table, prefix: string, max: nat, out: set<Suggestion>, q: Option<Query>): set<Suggestion>
  {
    var out1 := FromEntries(t.entries, prefix, max, out, q);
    match t.fallback
    case None => out1
    case Some(f) => FromTable(f, prefix, max, out1, None)
  }

  /** Everything the entries could suggest. */
  function Offered(es: seq<Entry>, prefix: string, q: Option<Query>): set<Suggestion>
  {
    set e | e in es && Passes(e, prefix, q) :: Suggest(e, prefix, q)
  }

  /** The same over the table and its fallbacks. */
  function OfferedBy(t: Table, prefix: string, q: Option<Query>): set<Suggestion>
  {
    Offered(t.entries, prefix, q) + (match t.fallback case None => {} case Some(f) => OfferedBy(f, prefix, None))
  }

  /** The loop keeps what the set held and adds only what the entries
      offer; when it misses an offered suggestion it stopped at the cap. */
  lemma {:induction false} EntriesBounds(es: seq<Entry>, prefix: string, max: nat, out: set<Suggestion>, q: Option<Query>)
    ensures var r := FromEntries(es, prefix, max, out, q);
            out <= r <= out + Offered(es, prefix, q) &&
            (!(Offered(es, prefix, q) <= r) ==> |r| == max)
  {
    if es != [] {
      var rest := es[1..];
      assert Offered(es, prefix, q) == Offered([es[0]], prefix, q) + Offered(rest, prefix, q) by {
        assert es == [es[0]] + rest;
      }
      if !Passes(es[0], prefix, q) {
        EntriesBounds(rest, prefix, max, out, q);
      } else {
        var out1 := out + {Suggest(es[0], prefix, q)};
        if |out1| != max {
          EntriesBounds(rest, prefix, max, out1, q);
        }
      }
    }
  }

  /** Below the cap every suggestion the table and its fallbacks offer is
      made, and nothing else is added. */
  lemma {:induction false} TableBounds(t: Table, prefix: string, max: nat, out: set<Suggestion>, q: Option<Query>)
    ensures var r := FromTable(t, prefix, max, out, q);
            out <= r <= out + OfferedBy(t, prefix, q) &&
            (|r| < max ==> OfferedBy(t, prefix, q) <= r)
  {
    EntriesBounds(t.entries, prefix, max, out, q);
    var out1 := FromEntries(t.entries, prefix, max, out, q);
    match t.fallback
    case None =>
    case Some(f) =>
      TableBounds(f, prefix, max, out1, None);
      SubsetSize(out1, FromTable(f, prefix, max, out1, None));
  }

  /** The cap does not bound the result: once one table has filled the set
      to max, a fallback still adds its first passing entry. */
  lemma {:induction false} CapNotHardBound(t: Table, prefix: string, max: nat, out: set<Suggestion>, q: Option<Query>)
    requires t.fallback.Some? && |t.fallback.value.entries| > 0
    requires Passes(t.fallback.value.entries[0], prefix, None)
    requires var out1 := FromEntries(t.entries, prefix, max, out, q);
             |out1| == max && Suggest(t.fallback.value.entries[0], prefix, None) !in out1
    ensures Suggest(t.fallback.value.entries[0], prefix, None) in FromTable(t, prefix, max, out, q)
    ensures |FromTable(t, prefix, max, out, q)| > max
  {
    var f := t.fallback.value;
    var out1 := FromEntries(t.entries, prefix, max, out, q);
    var s := Suggest(f.entries[0], prefix, None);
    FirstPassingKept(f.entries, prefix, max, out1, None);
    EntriesWithinTable(f, prefix, max, out1, None);
    assert out1 + {s} <= FromTable(t, prefix, max, out, q);
    assert |out1 + {s}| == max + 1;
    SubsetSize(out1 + {s}, FromTable(t, prefix, max, out, q));
  }

  /** The loop always inserts the first entry when it passes. */
  lemma {:induction false} FirstPassingKept(es: seq<Entry>, prefix: string, max: nat, out: set<Suggestion>, q: Option<Query>)
    requires es != [] && Passes(es[0], prefix, q)
    ensures out + {Suggest(es[0], prefix, q)} <= FromEntries(es, prefix, max, out, q)
  {
    var out1 := out + {Suggest(es[0], prefix, q)};
    if |out1| != max {
      EntriesBounds(es[1..], prefix, max, out1, q);
    }
  }

  /** The fallbacks only add to what the table's own loop left. */
  lemma {:induction false} EntriesWithinTable(t: Table, prefix: string, max: nat, out: set<Suggestion>, q: Option<Query>)
    ensures FromEntries(t.entries, prefix, max, out, q) <= FromTable(t, prefix, max, out, q)
  {
    match t.fallback
    case None =>
    case Some(f) =>
      TableBounds(f, prefix, max, FromEntries(t.entries, prefix, max, out, q), None);
  }

  lemma {:induction false} SubsetSize<T>(a: set<T>, b: set<T>)
    requires a <= b
    ensures |a| <= |b|
  {
    assert b == a + (b - a);
  }

  /** SuggestionsFromTable: the loop with its break at the cap, then the
      fallback table with no userdata query. */
  method SuggestionsFromTable(t: Table, prefix: string, max: nat, out: set<Suggestion>, q: Option<Query>)
    returns (out': set<Suggestion>)
    ensures out' == FromTable(t, prefix, max, out, q)
    decreases t
  {
    out' := out;
    var i := 0;
    while i < |t.entries|
      invariant 0 <= i <= |t.entries|
      invariant FromEntries(t.entries, prefix, max, out, q) == FromEntries(t.entries[i..], prefix, max, out', q)
    {
      var e := t.entries[i];
      assert t.entries[i..][1..] == t.entries[i + 1..];
      if Passes(e, prefix, q) {
        out' := out' + {Suggest(e, prefix, q)};
        if |out'| == max {
          break;
        }
      }
      i := i + 1;
    }
    match t.fallback
    case None =>
    case Some(f) =>
      out' := SuggestionsFromTable(f, prefix, max, out', None);
  }

  // ---------------------------------------------------------------------
  // The order of the result

  /** std::string's operator<: lexicographic, by code point. */
  predicate Below(a: string, b: string)
  {
    if a == [] then b != []
    else if b == [] then false
    else if a[0] != b[0] then a[0] < b[0]
    else Below(a[1..], b[1..])
  }

  lemma {:induction false} BelowIrreflexive(a: string)
    ensures !Below(a, a)
  {
    if a != [] {
      BelowIrreflexive(a[1..]);
    }
  }

  lemma {:induction false} BelowTransitive(a: string, b: string, c: string)
    requires Below(a, b) && Below(b, c)
    ensures Below(a, c)
  {
    if a != [] && b != [] && c != [] && a[0] == b[0] && b[0] == c[0] {
      BelowTransitive(a[1..], b[1..], c[1..]);
    }
  }

  lemma {:induction false} BelowTotal(a: string, b: string)
    requires a != b
    ensures Below(a, b) || Below(b, a)
  {
    if a != [] && b != [] && a[0] == b[0] {
      assert a == [a[0]] + a[1..] && b == [b[0]] + b[1..];
      BelowTotal(a[1..], b[1..]);
    }
  }

  /** The order the suggestions are sorted in: by the shown text, then
      the inserted text, then the cursor adjustment. */
  predicate Before(x: Suggestion, y: Suggestion)
  {
    Below(x.displayText, y.displayText) ||
    (x.displayText == y.displayText &&
     (Below(x.completionText, y.completionText) || (x.completionText == y.completionText && x.cursorAdjust < y.cursorAdjust)))
  }

  lemma {:induction false} BeforeTransitive(x: Suggestion, y: Suggestion, z: Suggestion)
    requires Before(x, y) && Before(y, z)
    ensures Before(x, z)
  {
    if Below(x.displayText, y.displayText) && Below(y.displayText, z.displayText) {
      BelowTransitive(x.displayText, y.displayText, z.displayText);
    } else if x.displayText == y.displayText == z.displayText &&
              Below(x.completionText, y.completionText) && Below(y.completionText, z.completionText) {
      BelowTransitive(x.completionText, y.completionText, z.completionText);
    }
  }

  lemma {:induction false} BeforeTotal(x: Suggestion, y: Suggestion)
    requires x != y
    ensures Before(x, y) || Before(y, x)
  {
    if x.displayText != y.displayText {
      BelowTotal(x.displayText, y.displayText);
    } else if x.completionText != y.completionText {
      BelowTotal(x.completionText, y.completionText);
    }
  }

  lemma {:induction false} BeforeIrreflexive(x: Suggestion)
    ensures !Before(x, x)
  {
    BelowIrreflexive(x.displayText);
    BelowIrreflexive(x.completionText);
  }

  predicate Sorted(r: seq<Suggestion>)
  {
    forall i, j :: 0 <= i < j < |r| ==> Before(r[i], r[j])
  }

  /** x put into the sorted r after every element before it. */
  method Insert(r: seq<Suggestion>, x: Suggestion) returns (r': seq<Suggestion>)
    requires Sorted(r) && x !in r
    ensures Sorted(r') && forall y :: y in r' <==> y in r || y == x
  {
    var k := 0;
    while k < |r| && Before(r[k], x)
      invariant 0 <= k <= |r|
      invariant forall j :: 0 <= j < k ==> Before(r[j], x)
    {
      k := k + 1;
    }
    if k < |r| {
      BeforeTotal(r[k], x);
      forall j | k < j < |r|
        ensures Before(x, r[j])
      {
        BeforeTransitive(x, r[k], r[j]);
      }
    }
    r' := r[..k] + [x] + r[k..];
    assert forall y :: y in r <==> y in r[..k] || y in r[k..] by {
      assert r == r[..k] + r[k..];
    }
  }

  /** c_sort over the suggestions the set holds. */
  method SortSuggestions(s: set<Suggestion>) returns (r: seq<Suggestion>)
    ensures Sorted(r) && forall y :: y in r <==> y in s
  {
    r := [];
    var rest := s;
    while rest != {}
      invariant rest <= s && Sorted(r)
      invariant forall y :: y in r <==> y in s && y !in rest
      decreases |rest|
    {
      var x :| x in rest;
      r := Insert(r, x);
      rest := rest - {x};
    }
  }

  // ---------------------------------------------------------------------
  // GetLuaAutocompleteSuggestions

  /** What a dotted path names: nothing usable, a table, or a userdata with
      the table its metatable holds, if any. */
  datatype Target = Missing | TableValue(table: Table) | UserdataValue(meta: Option<Table>)

  /** The environment: its own table, the table "_G" holds if it is one,
      and the walk along a path of '.' and ':' separated names. */
  datatype LuaEnv = LuaEnv(globals: Table, g: Option<Table>, lookup: string -> Target)

  /** The early exits before the token is looked at: nothing before the
      cursor; an identifier or operator character right after it, or a
      space with more text after that; a space after an identifier just
      before it. */
  predicate CursorRejected(before: string, after: string)
  {
    before == [] ||
    (after != [] && (IsIdentifierOrExprChar(after[0]) || (after[0] == ' ' && |after| > 1))) ||
    (|before| >= 2 && before[|before| - 1] == ' ' && IsIdentifierChar(before[|before| - 2]))
  }

  /** The character before the last token, or NUL when it starts the
      text. */
  function CharBefore(before: string): char
  {
    var n := |before| - |LastToken(before)|;
    if n <= 0 then '\0' else before[n - 1]
  }

  /** The characters a path is split at. */
  const PathBreaks: set<char> := {'.', ':'}

  /** text.substr(0, cursorPos): the text before the cursor, the whole
      text when the cursor lies past its end. */
  function TextPrefix(text: string, cursorPos: nat): (p: string)
    ensures |p| == (if cursorPos <= |text| then cursorPos else |text|) && p == text[..|p|]
  {
    if cursorPos <= |text| then text[..cursorPos] else text
  }

  /** text.substr(cursorPos): the text after the cursor. Past the end it
      throws std::out_of_range (TextSuffixThrows); it is empty here. */
  function TextSuffix(text: string, cursorPos: nat): (q: string)
    ensures cursorPos <= |text| ==> TextPrefix(text, cursorPos) + q == text
    ensures cursorPos > |text| ==> q == []
  {
    if cursorPos <= |text| then text[cursorPos..] else []
  }

  /** The call text.substr(cursorPos) is made, once the prefix is not
      empty, and throws: the cursor lies past the end of a non-empty text. */
  predicate TextSuffixThrows(text: string, cursorPos: nat)
  {
    TextPrefix(text, cursorPos) != [] && cursorPos > |text|
  }

  /** The suggestions for the text with the cursor at cursorPos, as a set
      before sorting; none when the suffix throws. */
  function SuggestionSet(text: string, cursorPos: nat, lua: LuaEnv, max: nat): set<Suggestion>
  {
    var before := TextPrefix(text, cursorPos);
    var prev := CharBefore(before);
    if CursorRejected(before, TextSuffix(text, cursorPos)) || TextSuffixThrows(text, cursorPos) || prev == '(' || prev == ',' then {}
    else TokenSuggestions(LastToken(before), prev, lua, max)
  }

  /** The token splits at its last '.' or ':': the path before it names
      the table to search, the prefix after it is what is completed. With
      no path the environment and "_G" are searched. */
  function TokenSuggestions(token: string, prev: char, lua: LuaEnv, max: nat): set<Suggestion>
  {
    var d := LastOf(token, PathBreaks);
    var prefix := token[d + 1..];
    if d <= 0 then
      if prev == '.' then {} else EnvSuggestions(lua, prefix, max)
    else TargetSuggestions(lua.lookup(token[..d]), prefix, token[d] == ':', max)
  }

  /** The environment's table, then the table "_G" holds, into one set. */
  function EnvSuggestions(lua: LuaEnv, prefix: string, max: nat): set<Suggestion>
  {
    var s1 := FromTable(lua.globals, prefix, max, {}, None);
    match lua.g
    case None => s1
    case Some(g) => FromTable(g, prefix, max, s1, None)
  }

  /** A table's suggestions; a userdata's come from its metatable, with
      the query saying whether ':' was typed. */
  function TargetSuggestions(target: Target, prefix: string, colon: bool, max: nat): set<Suggestion>
  {
    match target
    case Missing => {}
    case TableValue(t) => FromTable(t, prefix, max, {}, None)
    case UserdataValue(meta) =>
      if meta.None? then {} else FromTable(meta.value, prefix, max, {}, Some(Query(colon)))
  }

  /** The part of the last token after its last '.' or ':'. */
  function CompletionPrefix(before: string): (prefix: string)
    ensures forall k :: 0 <= k < |prefix| ==> prefix[k] != '.' && prefix[k] != ':'
  {
    var token := LastToken(before);
    token[LastOf(token, PathBreaks) + 1..]
  }

  /** The '.' test before the environment is searched never fires: the
      character before a token is a space, '(' or ',', or there is none. */
  lemma {:induction false} CharBeforeBreak(before: string)
    ensures CharBefore(before) in {'\0', ' ', '(', ','}
  {
    LastTokenLongest(before);
  }

  /** Every suggestion a table and its fallbacks offer shows a key that
      starts with the prefix and inserts something. */
  lemma {:induction false} OfferedText(t: Table, prefix: string, q: Option<Query>)
    ensures forall s :: s in OfferedBy(t, prefix, q) ==> StartsWith(s.displayText, prefix) && |s.completionText| > 0
  {
    forall e | e in t.entries && Passes(e, prefix, q)
      ensures StartsWith(Suggest(e, prefix, q).displayText, prefix)
    {
      SuggestText(e, prefix, q);
      var d := Suggest(e, prefix, q).displayText;
      assert d[..|prefix|] == d[..|e.key.value|][..|prefix|];
    }
    match t.fallback
    case None =>
    case Some(f) => OfferedText(f, prefix, None);
  }

  /** The same for what a table search adds to a set. */
  lemma {:induction false} FoundText(t: Table, prefix: string, max: nat, out: set<Suggestion>, q: Option<Query>)
    ensures forall s :: s in FromTable(t, prefix, max, out, q) && s !in out ==>
              StartsWith(s.displayText, prefix) && |s.completionText| > 0
  {
    TableBounds(t, prefix, max, out, q);
    OfferedText(t, prefix, q);
  }

  /** The same for the environment's search. */
  lemma {:induction false} EnvMatchesPrefix(lua: LuaEnv, prefix: string, max: nat)
    ensures forall s :: s in EnvSuggestions(lua, prefix, max) ==> StartsWith(s.displayText, prefix) && |s.completionText| > 0
  {
    FoundText(lua.globals, prefix, max, {}, None);
    if lua.g.Some? {
      FoundText(lua.g.value, prefix, max, FromTable(lua.globals, prefix, max, {}, None), None);
    }
  }

  /** The same for the search of what a path names. */
  lemma {:induction false} TargetMatchesPrefix(target: Target, prefix: string, colon: bool, max: nat)
    ensures forall s :: s in TargetSuggestions(target, prefix, colon, max) ==> StartsWith(s.displayText, prefix) && |s.completionText| > 0
  {
    if target.TableValue? {
      FoundText(target.table, prefix, max, {}, None);
    } else if target.UserdataValue? && target.meta.Some? {
      FoundText(target.meta.value, prefix, max, {}, Some(Query(colon)));
    }
  }

  /** Every suggestion for a token shows a text that starts with the part
      of the token after its last '.' or ':', and inserts something. */
  lemma {:induction false} TokenMatchesPrefix(token: string, prev: char, lua: LuaEnv, max: nat)
    ensures forall s :: s in TokenSuggestions(token, prev, lua, max) ==>
              StartsWith(s.displayText, token[LastOf(token, PathBreaks) + 1..]) && |s.completionText| > 0
  {
    var d := LastOf(token, PathBreaks);
    var prefix := token[d + 1..];
    var r := TokenSuggestions(token, prev, lua, max);
    if d <= 0 {
      EnvMatchesPrefix(lua, prefix, max);
      assert r <= EnvSuggestions(lua, prefix, max);
    } else {
      TargetMatchesPrefix(lua.lookup(token[..d]), prefix, token[d] == ':', max);
      assert r == TargetSuggestions(lua.lookup(token[..d]), prefix, token[d] == ':', max);
    }
  }

  /** Every suggestion made shows a text that starts with the completion
      prefix, and inserts something. */
  lemma {:induction false} SuggestionsMatchPrefix(text: string, cursorPos: nat, lua: LuaEnv, max: nat)
    ensures forall s :: s in SuggestionSet(text, cursorPos, lua, max) ==>
              StartsWith(s.displayText, CompletionPrefix(TextPrefix(text, cursorPos))) && |s.completionText| > 0
  {
    var before := TextPrefix(text, cursorPos);
    var prev := CharBefore(before);
    if !(CursorRejected(before, TextSuffix(text, cursorPos)) || TextSuffixThrows(text, cursorPos) || prev == '(' || prev == ',') {
      TokenMatchesPrefix(LastToken(before), prev, lua, max);
    }
  }

  /** Below the cap nothing a searched table offers is missing: when the
      cursor is accepted (and substr does not throw) and the token's path
      names a table, every suggestion it and its fallbacks offer is made
      unless the set reached max. */
  lemma {:induction false} TableSearchComplete(text: string, cursorPos: nat, lua: LuaEnv, max: nat, t: Table)
    requires var before := TextPrefix(text, cursorPos);
             var token := LastToken(before);
             var d := LastOf(token, PathBreaks);
             !CursorRejected(before, TextSuffix(text, cursorPos)) && !TextSuffixThrows(text, cursorPos) &&
             CharBefore(before) != '(' && CharBefore(before) != ',' &&
             d > 0 && lua.lookup(token[..d]) == TableValue(t)
    ensures var r := SuggestionSet(text, cursorPos, lua, max);
            |r| < max ==> OfferedBy(t, CompletionPrefix(TextPrefix(text, cursorPos)), None) <= r
  {
    var before := TextPrefix(text, cursorPos);
    var token := LastToken(before);
    var prefix := token[LastOf(token, PathBreaks) + 1..];
    assert SuggestionSet(text, cursorPos, lua, max) == FromTable(t, prefix, max, {}, None);
    TableBounds(t, prefix, max, {}, None);
  }

  /** The part of GetLuaAutocompleteSuggestions after the early exits:
      split the token, then search the environment or what the path
      names. */
  method SuggestionsForToken(token: string, prevChar: char, lua: LuaEnv, max: nat) returns (suggestions: set<Suggestion>)
    ensures suggestions == TokenSuggestions(token, prevChar, lua, max)
  {
    var dotPos := LastOf(token, PathBreaks);
    var prefix := token[dotPos + 1..];
    var completionChar := if dotPos >= 0 then token[dotPos] else '\0';
    var path := if dotPos < 0 then [] else token[..dotPos];
    assert path == [] <==> dotPos <= 0;
    if path == [] {
      if prevChar == '.' {
        return {};
      }
      suggestions := SearchEnv(lua, prefix, max);
    } else {
      suggestions := SearchTarget(lua.lookup(path), prefix, completionChar == ':', max);
    }
  }

  /** The search with no path: the environment's table, then "_G"'s. */
  method SearchEnv(lua: LuaEnv, prefix: string, max: nat) returns (suggestions: set<Suggestion>)
    ensures suggestions == EnvSuggestions(lua, prefix, max)
  {
    suggestions := SuggestionsFromTable(lua.globals, prefix, max, {}, None);
    if lua.g.Some? {
      suggestions := SuggestionsFromTable(lua.g.value, prefix, max, suggestions, None);
    }
  }

  /** The search in what the path names: a table, or a userdata's
      metatable with the ':' query. */
  method SearchTarget(obj: Target, prefix: string, colon: bool, max: nat) returns (suggestions: set<Suggestion>)
    ensures suggestions == TargetSuggestions(obj, prefix, colon, max)
  {
    suggestions := {};
    if obj.Missing? {
      return;
    }
    if obj.TableValue? {
      suggestions := SuggestionsFromTable(obj.table, prefix, max, suggestions, None);
    } else if obj.meta.Some? {
      suggestions := SuggestionsFromTable(obj.meta.value, prefix, max, suggestions, Some(Query(colon)));
    }
  }

  /** GetLuaAutocompleteSuggestions: out is cleared; it stays empty on
      every early exit; otherwise it holds the suggestions of the table
      the token's path names (or of the environment and "_G"), sorted.
      outOfRange reports the std::out_of_range that text.substr(cursorPos)
      throws for a cursor past the end of a non-empty text; out is empty
      then. */
  method GetLuaAutocompleteSuggestions(text: string, cursorPos: nat, lua: LuaEnv, max: nat)
    returns (out: seq<Suggestion>, outOfRange: bool)
    ensures Sorted(out) && forall y :: y in out <==> y in SuggestionSet(text, cursorPos, lua, max)
    ensures outOfRange <==> TextSuffixThrows(text, cursorPos)
    ensures outOfRange ==> out == []
    ensures CursorRejected(TextPrefix(text, cursorPos), TextSuffix(text, cursorPos)) ==> out == []
    ensures CharBefore(TextPrefix(text, cursorPos)) in {'(', ','} ==> out == []
  {
    out, outOfRange := [], false;
    var textPrefix := if cursorPos <= |text| then text[..cursorPos] else text;
    if textPrefix == [] {
      return;
    }
    if cursorPos > |text| {
      outOfRange := true;
      return;
    }
    var textSuffix := text[cursorPos..];
    if textSuffix != [] {
      var c := textSuffix[0];
      if IsIdentifierOrExprChar(c) || (c == ' ' && |textSuffix| > 1) {
        assert CursorRejected(textPrefix, textSuffix);
        return;
      }
    }
    if |textPrefix| >= 2 && textPrefix[|textPrefix| - 1] == ' ' && IsIdentifierChar(textPrefix[|textPrefix| - 2]) {
      assert CursorRejected(textPrefix, textSuffix);
      return;
    }
    assert !CursorRejected(textPrefix, textSuffix);
    var token := GetLastToken(textPrefix);
    var prevChar := if |token| == |textPrefix| then '\0' else textPrefix[|textPrefix| - |token| - 1];
    assert prevChar == CharBefore(textPrefix);
    if prevChar == '(' || prevChar == ',' {
      return;
    }
    var suggestions := SuggestionsForToken(token, prevChar, lua, max);
    out := SortSuggestions(suggestions);
  }
}
