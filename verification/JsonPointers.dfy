/** Reading one scalar out of a JSON body by an RFC 6901 pointer. */
module JsonPointers {
  import opened Outcomes
  import opened JsonValues
  import opened Decimals

  // ---- the syntax (section 3 of RFC 6901) ----

  predicate EscapeAt(text: string, i: nat) {
    i + 1 < |text| && (text[i + 1] == '0' || text[i + 1] == '1')
  }

  /** A pointer of at least one token, with every `~` starting an escape. */
  predicate Accepted(pointer: string) {
    pointer != "" && pointer[0] == '/' && forall i :: 0 <= i < |pointer| && pointer[i] == '~' ==> EscapeAt(pointer, i)
  }

  /** The refusal's regular expression, read from left to right. */
  predicate Scan(text: string) {
    if text == "" then true
    else if text[0] == '~' then |text| >= 2 && (text[1] == '0' || text[1] == '1') && Scan(text[2..])
    else Scan(text[1..])
  }

  lemma {:induction false} ScanChecksEscapes(text: string)
    ensures Scan(text) <==> forall i :: 0 <= i < |text| && text[i] == '~' ==> EscapeAt(text, i)
    decreases |text|
  {
    if text != "" {
      var skip := if text[0] == '~' then 2 else 1;
      if |text| >= skip {
        var rest := text[skip..];
        ScanChecksEscapes(rest);
        assert forall i :: 0 <= i < |rest| ==> rest[i] == text[i + skip] && (EscapeAt(rest, i) <==> EscapeAt(text, i + skip));
        if skip == 2 && EscapeAt(text, 0) { assert text[1] != '~'; }
        assert forall i :: skip <= i < |text| ==> text[i] == rest[i - skip];
      } else {
        assert !EscapeAt(text, 0);
      }
    }
  }

  // ---- tokens ----

  /** Every `~` followed by `second` becomes `put`, from left to right. */
  function Replace(text: string, second: char, put: char): string {
    if |text| < 2 then text
    else if text[0] == '~' && text[1] == second then [put] + Replace(text[2..], second, put)
    else [text[0]] + Replace(text[1..], second, put)
  }

  /** The program's two passes: `~1` first, then `~0`. */
  function DecodeToken(token: string): string {
    Replace(Replace(token, '1', '/'), '0', '~')
  }

  /** One pass over the escapes, as section 4 of RFC 6901 means them. */
  function Unescape(token: string): string {
    if |token| < 2 then token
    else if token[0] == '~' && token[1] == '1' then "/" + Unescape(token[2..])
    else if token[0] == '~' && token[1] == '0' then "~" + Unescape(token[2..])
    else [token[0]] + Unescape(token[1..])
  }

  function Escape(name: string): string {
    if name == "" then ""
    else EscapeChar(name[0]) + Escape(name[1..])
  }

  lemma ReplaceFirst(text: string, second: char, put: char)
    requires text != "" && !(|text| >= 2 && text[0] == '~' && text[1] == second)
    ensures Replace(text, second, put) == [text[0]] + Replace(text[1..], second, put)
  {
    if |text| == 1 { assert text == [text[0]] && text[1..] == ""; }
  }

  /** Decoding in two passes is decoding in one, on every token. */
  lemma {:induction false} TwoPassesAreOne(token: string)
    ensures DecodeToken(token) == Unescape(token)
    decreases |token|
  {
    if |token| >= 2 {
      if token[0] == '~' && token[1] == '1' {
        TwoPassesAreOne(token[2..]);
        var once := Replace(token, '1', '/');
        assert once[1..] == Replace(token[2..], '1', '/');
        ReplaceFirst(once, '0', '~');
      } else if token[0] == '~' && token[1] == '0' {
        TwoPassesAreOne(token[2..]);
        var once := Replace(token, '1', '/');
        assert token[1..][0] == '0' && token[1..][1..] == token[2..];
        ReplaceFirst(token[1..], '1', '/');
        assert once == ['~'] + (['0'] + Replace(token[2..], '1', '/'));
        assert once[2..] == Replace(token[2..], '1', '/');
      } else {
        TwoPassesAreOne(token[1..]);
        var once := Replace(token, '1', '/');
        assert once == [token[0]] + Replace(token[1..], '1', '/');
        assert once[1..] == Replace(token[1..], '1', '/');
        FirstOfReplace(token[1..]);
        ReplaceFirst(once, '0', '~');
      }
    }
  }

  /** The first pass never puts a `0` in front. */
  lemma FirstOfReplace(text: string)
    requires text != ""
    ensures Replace(text, '1', '/') != "" && (Replace(text, '1', '/')[0] == '0' ==> text[0] == '0')
  {
  }

  predicate IsToken(token: string) {
    '/' !in token && forall i :: 0 <= i < |token| && token[i] == '~' ==> EscapeAt(token, i)
  }

  function EscapeChar(c: char): string {
    if c == '~' then "~0" else if c == '/' then "~1" else [c]
  }

  lemma EscapeFirst(name: string)
    requires name != ""
    ensures Escape(name) == EscapeChar(name[0]) + Escape(name[1..])
    ensures Escape(name)[|EscapeChar(name[0])|..] == Escape(name[1..])
  {
  }

  lemma {:induction false} EscapedIsToken(name: string)
    ensures IsToken(Escape(name))
  {
    if name != "" {
      EscapedIsToken(name[1..]);
      EscapedStartsToken(name[0], Escape(name[1..]));
      hide IsToken, EscapeChar;
    }
  }

  lemma EscapedStartsToken(c: char, rest: string)
    requires IsToken(rest)
    ensures IsToken(EscapeChar(c) + rest)
  {
    var first, text := EscapeChar(c), EscapeChar(c) + rest;
    forall i | 0 <= i < |text| && text[i] == '~' ensures EscapeAt(text, i) {
      if i >= |first| { assert EscapeAt(rest, i - |first|); }
    }
  }

  lemma {:induction false} UnescapeEscaped(name: string)
    ensures Unescape(Escape(name)) == name
  {
    if name != "" {
      hide Escape;
      UnescapeEscaped(name[1..]);
      EscapeFirst(name);
      UnescapeStep(EscapeChar(name[0]), Escape(name[1..]), name[0]);
      assert name == [name[0]] + name[1..];
    } else {
      assert Escape(name) == "";
    }
  }

  lemma UnescapeStep(first: string, rest: string, c: char)
    requires first == EscapeChar(c)
    ensures Unescape(first + rest) == [c] + Unescape(rest)
  {
    var text := first + rest;
    assert text[|first|..] == rest;
    if |text| < 2 { assert rest == "" && text == first; }
  }

  lemma {:induction false} EscapeUnescaped(token: string)
    requires IsToken(token)
    ensures Escape(Unescape(token)) == token
    decreases |token|
  {
    if token != "" {
      if token[0] == '~' {
        assert EscapeAt(token, 0);
        var rest := token[2..];
        TokenTail(token, 2);
        EscapeUnescaped(rest);
        var name := Unescape(token);
        assert name[1..] == Unescape(rest);
        assert token == token[..2] + rest && token[..2] == [token[0], token[1]];
      } else {
        var rest := token[1..];
        TokenTail(token, 1);
        EscapeUnescaped(rest);
        if |token| >= 2 { assert Unescape(token)[1..] == Unescape(rest); }
        assert token[0] in token;
        assert token == [token[0]] + rest;
      }
    }
  }

  lemma TokenTail(token: string, n: nat)
    requires IsToken(token) && n <= |token|
    ensures IsToken(token[n..])
  {
    forall i | 0 <= i < |token[n..]| && token[n..][i] == '~' ensures EscapeAt(token[n..], i) { assert EscapeAt(token, i + n); }
  }

  // ---- splitting and printing ----

  function Split(text: string): (tokens: seq<string>)
    ensures tokens != []
  {
    if text == "" then [""]
    else if text[0] == '/' then [""] + Split(text[1..])
    else var rest := Split(text[1..]); [[text[0]] + rest[0]] + rest[1..]
  }

  function Join(tokens: seq<string>): string {
    if tokens == [] then "" else "/" + tokens[0] + Join(tokens[1..])
  }

  /** Splitting at the slashes and joining with them are inverse to each other. */
  lemma {:induction false} JoinSplit(text: string)
    ensures Join(Split(text)) == "/" + text
  {
    if text == "" {
      assert Split(text)[1..] == [];
    } else {
      hide Join;
      JoinSplit(text[1..]);
      var tail, rest := text[1..], Split(text[1..]);
      if text[0] == '/' {
        JoinEmptyFirst(rest);
        assert text == "/" + tail;
      } else {
        JoinLonger(text[0], rest);
        assert ("/" + tail)[1..] == tail;
        assert "/" + [text[0]] + tail == "/" + text;
      }
    }
  }

  lemma JoinEmptyFirst(tokens: seq<string>)
    ensures Join([""] + tokens) == "/" + Join(tokens)
  {
    assert ([""] + tokens)[1..] == tokens;
    assert "/" + "" == "/";
  }

  lemma JoinLonger(c: char, tokens: seq<string>)
    requires tokens != []
    ensures Join([[c] + tokens[0]] + tokens[1..]) == "/" + [c] + Join(tokens)[1..]
  {
    assert ([[c] + tokens[0]] + tokens[1..])[1..] == tokens[1..];
    assert Join(tokens) == "/" + (tokens[0] + Join(tokens[1..]));
  }

  lemma {:induction false} SplitHasNoSlash(text: string)
    ensures forall t :: t in Split(text) ==> '/' !in t
  {
    if text != "" {
      SplitHasNoSlash(text[1..]);
      var rest := Split(text[1..]);
      forall t | t in Split(text) ensures '/' !in t {
        if text[0] != '/' && t == Split(text)[0] { assert rest[0] in rest; } else if t !in rest { assert t == ""; }
      }
    }
  }

  lemma {:induction false} SplitJoin(tokens: seq<string>)
    requires tokens != [] && forall t :: t in tokens ==> '/' !in t
    ensures Split(Join(tokens)[1..]) == tokens
  {
    hide Split;
    assert Join(tokens)[1..] == tokens[0] + Join(tokens[1..]);
    assert tokens == [tokens[0]] + tokens[1..] && tokens[0] in tokens;
    if |tokens| > 1 { SplitJoin(tokens[1..]); }
    SplitFirst(tokens[0], tokens[1..]);
  }

  lemma {:induction false} SplitFirst(first: string, rest: seq<string>)
    requires '/' !in first && (rest != [] ==> Split(Join(rest)[1..]) == rest)
    ensures Split(first + Join(rest)) == [first] + rest
  {
    var text := first + Join(rest);
    if first == "" {
      assert text == Join(rest);
      if rest != [] { assert text[0] == '/'; } else { assert [first] + rest == [""]; }
    } else {
      assert first[0] in first;
      assert text[1..] == first[1..] + Join(rest);
      SplitFirst(first[1..], rest);
      assert first == [first[0]] + first[1..];
    }
  }

  // ---- evaluation (section 4 of RFC 6901) ----

  datatype PathStep = Key(name: string) | Index(n: nat)

  /** The value a path of keys and indices leads to. */
  function Follow(v: Json, path: seq<PathStep>): Option<Json> {
    if path == [] then Some(v)
    else match path[0]
      case Key(name) =>
        if v.Obj? && IndexOf(v.fields, name) < |v.fields| then Follow(v.fields[IndexOf(v.fields, name)].1, path[1..]) else None
      case Index(n) => if v.Arr? && n < |v.items| then Follow(v.items[n], path[1..]) else None
  }

  function StepToken(step: PathStep): string {
    match step
    case Key(name) => name
    case Index(n) => ToDecimal(n)
  }

  function PrintPointer(path: seq<PathStep>): string {
    if path == [] then "" else "/" + Escape(StepToken(path[0])) + PrintPointer(path[1..])
  }

  predicate IsPointable(v: Json) {
    v.Str? || v.Num? || v.Bool?
  }

  datatype Reading = Found(value: Json) | PointerRefused | Unresolved | NotScalar

  /** Looking a token up in a value: what the program finds (`None` for undefined), or nothing when it gives up. */
  function Lookup(v: Option<Json>, token: string): Option<Option<Json>> {
    if v.Some? && v.value.Arr? then
      if IsCanonical(token) then
        var n := FromDigits(token);
        Some(if n < |v.value.items| then Some(v.value.items[n]) else None)
      else None
    else if v.Some? && v.value.Obj? && IndexOf(v.value.fields, token) < |v.value.fields|
    then Some(Some(v.value.fields[IndexOf(v.value.fields, token)].1))
    else None
  }

  function Resolve(v: Option<Json>, tokens: seq<string>): Reading
    decreases |tokens|
  {
    if tokens == [] then (if v.Some? && IsPointable(v.value) then Found(v.value) else NotScalar)
    else
      var next := Lookup(v, Unescape(tokens[0]));
      if next.None? then Unresolved else Resolve(next.value, tokens[1..])
  }

  function Reads(body: Json, pointer: string): Reading {
    if !Accepted(pointer) then PointerRefused else Resolve(Some(body), Split(pointer[1..]))
  }

  method PointedValue(body: Json, pointer: string) returns (r: Reading)
    ensures r == Reads(body, pointer)
  {
    ScanChecksEscapes(pointer);
    if pointer == "" || pointer[0] != '/' || !Scan(pointer) { return PointerRefused; }
    var tokens := Split(pointer[1..]);
    var value: Option<Json> := Some(body);
    for i := 0 to |tokens|
      invariant Resolve(Some(body), tokens) == Resolve(value, tokens[i..])
    {
      TwoPassesAreOne(tokens[i]);
      var next := Lookup(value, DecodeToken(tokens[i]));
      if next.None? { return Unresolved; }
      value := next.value;
      assert tokens[i..][1..] == tokens[i + 1..];
    }
    r := if value.Some? && IsPointable(value.value) then Found(value.value) else NotScalar;
  }

  function EscapedTokens(path: seq<PathStep>): seq<string> {
    if path == [] then [] else [Escape(StepToken(path[0]))] + EscapedTokens(path[1..])
  }

  lemma {:induction false} PrintIsJoin(path: seq<PathStep>)
    ensures PrintPointer(path) == Join(EscapedTokens(path))
    ensures forall t :: t in EscapedTokens(path) ==> IsToken(t)
    ensures |EscapedTokens(path)| == |path|
  {
    if path != [] {
      PrintIsJoin(path[1..]);
      EscapedIsToken(StepToken(path[0]));
      assert EscapedTokens(path)[1..] == EscapedTokens(path[1..]);
    }
  }

  lemma {:induction false} JoinedIsAccepted(tokens: seq<string>)
    requires tokens != [] && forall t :: t in tokens ==> IsToken(t)
    ensures Accepted(Join(tokens))
  {
    hide EscapeAt;
    var rest := Join(tokens[1..]);
    var text := "/" + tokens[0] + rest;
    if |tokens| > 1 { JoinedIsAccepted(tokens[1..]); }
    assert tokens[0] in tokens;
    EscapesCarryOver(tokens[0], rest);
  }

  lemma EscapesCarryOver(token: string, rest: string)
    requires IsToken(token) && (rest != "" ==> Accepted(rest))
    ensures Accepted("/" + token + rest)
  {
    var text := "/" + token + rest;
    forall i | 0 <= i < |text| && text[i] == '~' ensures EscapeAt(text, i) {
      if i <= |token| {
        assert text[i] == token[i - 1] && EscapeAt(token, i - 1);
        assert text[i + 1] == token[i];
      } else {
        assert text[i] == rest[i - 1 - |token|] && EscapeAt(rest, i - 1 - |token|);
        assert text[i + 1] == rest[i - |token|];
      }
    }
  }

  /** Following the printed tokens is following the path. */
  lemma {:induction false} ResolveFollows(v: Json, path: seq<PathStep>)
    requires Follow(v, path).Some?
    ensures Resolve(Some(v), EscapedTokens(path)) == if IsPointable(Follow(v, path).value) then Found(Follow(v, path).value) else NotScalar
  {
    if path != [] {
      UnescapeEscaped(StepToken(path[0]));
      assert EscapedTokens(path)[1..] == EscapedTokens(path[1..]);
      match path[0]
      case Key(name) => ResolveFollows(v.fields[IndexOf(v.fields, name)].1, path[1..]);
      case Index(n) =>
        PrintedReadsBack(n);
        ResolveFollows(v.items[n], path[1..]);
    }
  }

  /** Whatever a non-empty path leads to, its printed pointer reads back, when it is a string, a number or a boolean. */
  lemma PrintedPointerReads(body: Json, path: seq<PathStep>)
    requires path != [] && Follow(body, path).Some? && IsPointable(Follow(body, path).value)
    ensures Reads(body, PrintPointer(path)) == Found(Follow(body, path).value)
  {
    PrintIsJoin(path);
    JoinedIsAccepted(EscapedTokens(path));
    SplitJoin(EscapedTokens(path));
    ResolveFollows(body, path);
  }

  /** Whatever a list of tokens reads, some path of keys and indices leads to it and prints those tokens. */
  lemma {:induction false} ResolvedHasPath(v: Json, tokens: seq<string>) returns (path: seq<PathStep>)
    requires Resolve(Some(v), tokens).Found? && forall t :: t in tokens ==> IsToken(t)
    ensures Follow(v, path) == Some(Resolve(Some(v), tokens).value) && EscapedTokens(path) == tokens
  {
    if tokens == [] {
      path := [];
    } else {
      hide IsToken, Lookup, Follow, EscapedTokens, Escape, Unescape, IsPointable;
      var name := Unescape(tokens[0]);
      var next := Lookup(Some(v), name);
      assert next.Some? && Resolve(next.value, tokens[1..]).Found?;
      NothingResolvesToNothing(tokens[1..]);
      var rest := ResolvedHasPath(next.value.value, tokens[1..]);
      path := LookupIsStep(v, name, next.value.value, rest);
      assert tokens[0] in tokens;
      EscapeUnescaped(tokens[0]);
      assert tokens == [tokens[0]] + tokens[1..];
    }
  }

  lemma NothingResolvesToNothing(tokens: seq<string>)
    ensures !Resolve(None, tokens).Found?
  {
  }

  /** What a token leads to is one step away. */
  lemma LookupIsStep(v: Json, name: string, next: Json, rest: seq<PathStep>) returns (path: seq<PathStep>)
    requires Lookup(Some(v), name) == Some(Some(next))
    ensures Follow(v, path) == Follow(next, rest) && EscapedTokens(path) == [Escape(name)] + EscapedTokens(rest)
  {
    if v.Arr? { CanonicalPrintsBack(name); }
    var step := if v.Arr? then Index(FromDigits(name)) else Key(name);
    path := [step] + rest;
    hide IsCanonical, Escape, ToDecimal, FromDigits;
    assert path[0] == step && path[1..] == rest;
  }

  /** A pointer reads a value exactly when it is the printed form of some path that leads to it. */
  lemma ReadsExactlyThePath(body: Json, pointer: string, v: Json)
    requires IsPointable(v)
    ensures Reads(body, pointer) == Found(v) <==> exists path :: path != [] && Follow(body, path) == Some(v) && PrintPointer(path) == pointer
  {
    if Reads(body, pointer) == Found(v) {
      var tokens := Split(pointer[1..]);
      AcceptedSplits(pointer);
      var path := ResolvedHasPath(body, tokens);
      PrintIsJoin(path);
      assert path != [] && Follow(body, path) == Some(v) && PrintPointer(path) == pointer;
    }
    if exists path :: path != [] && Follow(body, path) == Some(v) && PrintPointer(path) == pointer {
      var path :| path != [] && Follow(body, path) == Some(v) && PrintPointer(path) == pointer;
      PrintedPointerReads(body, path);
    }
  }

  /** An accepted pointer is made of well-formed tokens, and is their join. */
  lemma AcceptedSplits(pointer: string)
    requires Accepted(pointer)
    ensures forall t :: t in Split(pointer[1..]) ==> IsToken(t)
    ensures Join(Split(pointer[1..])) == pointer
  {
    var text := pointer[1..];
    assert pointer == "/" + text;
    JoinSplit(text);
    SplitHasNoSlash(text);
    assert forall i :: 0 <= i < |text| && text[i] == '~' ==> EscapeAt(text, i) by {
      forall i | 0 <= i < |text| && text[i] == '~' ensures EscapeAt(text, i) { assert EscapeAt(pointer, i + 1); }
    }
    SplitKeepsEscapes(text);
  }

  lemma {:induction false} SplitKeepsEscapes(text: string)
    requires forall i :: 0 <= i < |text| && text[i] == '~' ==> EscapeAt(text, i)
    ensures forall t :: t in Split(text) ==> forall i :: 0 <= i < |t| && t[i] == '~' ==> EscapeAt(t, i)
  {
    if text != "" {
      var tail := text[1..];
      forall i | 0 <= i < |tail| && tail[i] == '~' ensures EscapeAt(tail, i) { assert EscapeAt(text, i + 1); }
      SplitKeepsEscapes(tail);
      var rest := Split(tail);
      if text[0] != '/' {
        var first := [text[0]] + rest[0];
        assert rest[0] in rest;
        SplitStart(tail);
        forall i | 0 <= i < |first| && first[i] == '~' ensures EscapeAt(first, i) {
          if i > 0 { assert EscapeAt(rest[0], i - 1); } else { assert EscapeAt(text, 0); }
        }
      }
    }
  }

  /** The first token starts as the text does, unless the text starts with a slash. */
  lemma SplitStart(text: string)
    ensures text != "" && text[0] != '/' ==> Split(text)[0] != "" && Split(text)[0][0] == text[0]
  {
  }

  /** Two accepted pointers with the same decoded tokens are the same pointer. */
  lemma {:induction false} PointersAreInjective(p: string, q: string)
    requires Accepted(p) && Accepted(q)
    requires |Split(p[1..])| == |Split(q[1..])|
    requires forall i :: 0 <= i < |Split(p[1..])| ==> DecodeToken(Split(p[1..])[i]) == DecodeToken(Split(q[1..])[i])
    ensures p == q
  {
    AcceptedSplits(p);
    AcceptedSplits(q);
    var s, t := Split(p[1..]), Split(q[1..]);
    forall i | 0 <= i < |s| ensures s[i] == t[i] {
      assert s[i] in s && t[i] in t;
      TwoPassesAreOne(s[i]);
      TwoPassesAreOne(t[i]);
      EscapeUnescaped(s[i]);
      EscapeUnescaped(t[i]);
    }
    assert s == t;
  }
}
