/** The owner's profile: saved text, the tagged block it becomes in a prompt, and the cache of that block, which is keyed
    by the file's modification time and size. */
module AboutMe {
  import opened Outcomes
  import opened Texts

  const MAX_CHARS := 4000
  const TAG := "about-the-owner"
  const OPENING := "<" + TAG + ">"
  const CLOSING := "</" + TAG + ">"

  /** The line that introduces the owner's words; it holds no angle of its own. */
  type Introduction = line: string | '<' !in line witness ""

  // ---- the block ----

  /** The length of the opening or closing tag that starts here in any letter case, 0 if there is none. */
  function TagAt(text: string, i: nat): (n: nat)
    ensures n > 0 ==> i + n <= |text| && text[i] == '<'
  {
    if i >= |text| || text[i] != '<' then 0
    else if MatchesAt(text, i + 1, TAG) then 1 + |TAG|
    else if MatchesAt(text, i + 1, "/" + TAG) then 2 + |TAG|
    else 0
  }

  /** The global replacement: each match is taken whole, its `<` becomes `&lt;`, and the search goes on behind it. */
  function Escape(text: string): string {
    if text == "" then ""
    else
      var n := TagAt(text, 0);
      if n > 0 then "&lt;" + text[1..n] + Escape(text[n..]) else [text[0]] + Escape(text[1..])
  }

  function Render(introduction: Introduction, saved: string): string {
    var body := Escape(Trim(saved));
    if body == "" then "" else OPENING + "\n" + introduction + "\n\n" + body + "\n" + CLOSING + "\n\n"
  }

  /** The same replacement one character at a time. */
  function EscapeEach(text: string): string {
    if text == "" then ""
    else (if TagAt(text, 0) > 0 then "&lt;" else [text[0]]) + EscapeEach(text[1..])
  }

  predicate Plain(text: string) {
    forall i :: 0 <= i < |text| ==> text[i] != '<' && text[i] != '&' && text[i] != '\n'
  }

  lemma {:induction false} PlainIsKept(plain: string, rest: string)
    requires Plain(plain)
    ensures EscapeEach(plain + rest) == plain + EscapeEach(rest)
  {
    if plain == "" {
      assert plain + rest == rest;
    } else {
      assert (plain + rest)[1..] == plain[1..] + rest;
      PlainIsKept(plain[1..], rest);
    }
  }

  lemma MatchIsPlain(text: string, i: nat, pattern: string)
    requires MatchesAt(text, i, pattern) && (pattern == TAG || pattern == "/" + TAG)
    ensures Plain(text[i..i + |pattern|])
  {
    var found := text[i..i + |pattern|];
    forall k | 0 <= k < |found| ensures found[k] != '<' && found[k] != '&' && found[k] != '\n' {
      assert Lower(text[i + k]) == pattern[k];
    }
  }

  lemma TagIsPlain(text: string)
    requires TagAt(text, 0) > 0
    ensures Plain(text[1..TagAt(text, 0)])
  {
    if MatchesAt(text, 1, TAG) { MatchIsPlain(text, 1, TAG); } else { MatchIsPlain(text, 1, "/" + TAG); }
    hide MatchesAt;
  }

  lemma {:induction false} EscapeIsEach(text: string)
    ensures Escape(text) == EscapeEach(text)
  {
    if text != "" {
      var n := TagAt(text, 0);
      if n > 0 {
        TagIsPlain(text);
        hide TagAt;
        PlainIsKept(text[1..n], text[n..]);
        assert text[1..] == text[1..n] + text[n..];
        EscapeIsEach(text[n..]);
      } else {
        EscapeIsEach(text[1..]);
      }
    }
  }

  /** A pattern without `&` and `<` that starts the escaped text starts the text itself. */
  lemma {:induction false} MatchReflected(text: string, pattern: string)
    requires MatchesAt(EscapeEach(text), 0, pattern) && Plain(pattern)
    ensures MatchesAt(text, 0, pattern)
  {
    if pattern != "" && text != "" {
      var escaped := EscapeEach(text);
      MatchFirst(escaped, pattern);
      MatchFirst(text, pattern);
      hide MatchesAt, TagAt;
      assert Lower(escaped[0]) == pattern[0];
      assert escaped[0] == text[0] && escaped[1..] == EscapeEach(text[1..]) by { assert escaped[0] != '&'; }
      MatchReflected(text[1..], pattern[1..]);
    }
  }

  lemma MatchFirst(text: string, pattern: string)
    requires pattern != ""
    ensures MatchesAt(text, 0, pattern) <==> text != "" && Lower(text[0]) == pattern[0] && MatchesAt(text[1..], 0, pattern[1..])
  {
    hide Lower;
    if text != "" && MatchesAt(text[1..], 0, pattern[1..]) && Lower(text[0]) == pattern[0] {
      forall k | 0 <= k < |pattern| ensures Lower(text[k]) == pattern[k] {
        if k > 0 { assert Lower(text[1..][k - 1]) == pattern[1..][k - 1]; }
      }
    }
  }

  lemma {:induction false} MatchBehind(front: string, back: string, i: nat, p: string)
    ensures MatchesAt(front + back, |front| + i, p) <==> MatchesAt(back, i, p)
  {
    var text := front + back;
    if i + |p| <= |back| {
      assert text[|front| + i..|front| + i + |p|] == back[i..i + |p|];
      SameCharacters(text, |front| + i, back, i, p);
    }
  }

  lemma {:induction false} SameCharacters(text: string, i: nat, other: string, j: nat, p: string)
    requires i + |p| <= |text| && j + |p| <= |other| && text[i..i + |p|] == other[j..j + |p|]
    ensures MatchesAt(text, i, p) <==> MatchesAt(other, j, p)
  {
    var found := text[i..i + |p|];
    assert MatchesAt(text, i, p) <==> MatchesAt(found, 0, p) by { assert forall k :: 0 <= k < |p| ==> found[k] == text[i + k]; }
    assert MatchesAt(other, j, p) <==> MatchesAt(found, 0, p) by { assert forall k :: 0 <= k < |p| ==> found[k] == other[j + k]; }
  }

  lemma {:induction false} TagBehind(front: string, back: string, i: nat)
    ensures TagAt(front + back, |front| + i) == TagAt(back, i)
  {
    MatchBehind(front, back, i + 1, TAG);
    MatchBehind(front, back, i + 1, "/" + TAG);
  }

  /** No tag, opening or closing, in any letter case, anywhere in escaped text. */
  lemma {:induction false} EscapedHasNoTag(text: string, i: nat)
    ensures TagAt(Escape(text), i) == 0
  {
    EscapeIsEach(text);
    if text != "" {
      var head, rest := if TagAt(text, 0) > 0 then "&lt;" else [text[0]], EscapeEach(text[1..]);
      if i >= |head| {
        EscapeIsEach(text[1..]);
        EscapedHasNoTag(text[1..], i - |head|);
        TagBehind(head, rest, i - |head|);
      } else if TagAt(text, 0) == 0 && text[0] == '<' {
        LoneAngle(text);
      }
    }
  }

  lemma LoneAngle(text: string)
    requires text != "" && text[0] == '<' && TagAt(text, 0) == 0
    ensures TagAt([text[0]] + EscapeEach(text[1..]), 0) == 0
  {
    NoNewMatch(text, TAG);
    NoNewMatch(text, "/" + TAG);
    hide EscapeEach, MatchesAt;
  }

  lemma NoNewMatch(text: string, p: string)
    requires text != "" && Plain(p)
    ensures MatchesAt([text[0]] + EscapeEach(text[1..]), 1, p) ==> MatchesAt(text, 1, p)
  {
    hide EscapeEach, MatchesAt, Plain;
    MatchBehind([text[0]], EscapeEach(text[1..]), 0, p);
    MatchBehind([text[0]], text[1..], 0, p);
    assert [text[0]] + text[1..] == text;
    if MatchesAt([text[0]] + EscapeEach(text[1..]), 1, p) { MatchReflected(text[1..], p); }
  }

  // ---- exactly one opening and one closing tag ----

  lemma MatchKeepsToLine(front: string, back: string, i: nat, p: string)
    requires i < |front| && Plain(p)
    ensures MatchesAt(front + "\n" + back, i + 1, p) <==> MatchesAt(front, i + 1, p)
  {
    var text := front + "\n" + back;
    if i + 1 + |p| > |front| {
      var k := |front| - i - 1;
      assert text[i + 1 + k] == '\n' && Lower(text[i + 1 + k]) != p[k];
    } else {
      assert text[i + 1..i + 1 + |p|] == front[i + 1..i + 1 + |p|];
      SameCharacters(text, i + 1, front, i + 1, p);
    }
  }

  /** No tag extends over a line break. */
  lemma TagsKeepToLines(front: string, back: string, i: nat)
    ensures TagAt(front + "\n" + back, i)
              == if i < |front| then TagAt(front, i) else if i == |front| then 0 else TagAt(back, i - |front| - 1)
  {
    if i > |front| {
      TagBehind(front + "\n", back, i - |front| - 1);
    } else if i < |front| {
      MatchKeepsToLine(front, back, i, TAG);
      MatchKeepsToLine(front, back, i, "/" + TAG);
    }
  }

  lemma IntroductionHasNoTag(introduction: Introduction, i: nat)
    ensures TagAt(introduction, i) == 0
  {
    if i < |introduction| { assert introduction[i] in introduction; }
  }

  /** Text that holds one tag of length `n`, at `at`. */
  ghost predicate OneTag(text: string, at: nat, n: nat) {
    n > 0 && forall i: nat :: TagAt(text, i) == if i == at then n else 0
  }

  ghost predicate NoTag(text: string) {
    forall i: nat :: TagAt(text, i) == 0
  }

  lemma LineBefore(line: string, tail: string, at: nat, n: nat)
    requires NoTag(line) && OneTag(tail, at, n)
    ensures OneTag(line + "\n" + tail, |line| + 1 + at, n)
  {
    forall i: nat ensures TagAt(line + "\n" + tail, i) == if i == |line| + 1 + at then n else 0 {
      TagsKeepToLines(line, tail, i);
    }
  }

  lemma TagIsItself()
    ensures forall k :: 0 <= k < |TAG| ==> Lower(TAG[k]) == TAG[k] && TAG[k] != '<' && TAG[k] != '/'
  {
  }

  lemma OpeningTag()
    ensures OneTag(OPENING, 0, 1 + |TAG|)
  {
    TagIsItself();
    hide TAG;
    assert MatchesAt(OPENING, 1, TAG);
    forall i: nat | 0 < i ensures TagAt(OPENING, i) == 0 {
      assert i < |OPENING| - 1 ==> OPENING[i] == TAG[i - 1];
    }
  }

  lemma ClosingTag()
    ensures OneTag(CLOSING, 0, 2 + |TAG|)
  {
    assert |TAG| > 0;
    TagIsItself();
    hide TAG;
    assert MatchesAt(CLOSING, 1, "/" + TAG);
    assert Lower(CLOSING[1 + 0]) != TAG[0];
    forall i: nat | 0 < i ensures TagAt(CLOSING, i) == 0 {
      assert 1 < i < |CLOSING| - 1 ==> CLOSING[i] == TAG[i - 2];
    }
  }

  lemma EndLines()
    ensures OneTag(CLOSING + "\n" + "\n", 0, 2 + |TAG|)
  {
    ClosingTag();
    assert |CLOSING| > 0;
    hide CLOSING;
    forall i: nat ensures TagAt(CLOSING + "\n" + "\n", i) == if i == 0 then 2 + |TAG| else 0 {
      TagsKeepToLines(CLOSING, "\n", i);
    }
  }

  /** A prompt that is not empty starts with the opening tag, ends with the closing one, and holds no other. */
  lemma OneBlock(introduction: Introduction, saved: string)
    requires !IsBlank(saved)
    ensures var prompt := Render(introduction, saved); var last := |prompt| - |CLOSING| - 2;
            && OPENING <= prompt && last >= 0 && prompt[last..] == CLOSING + "\n\n"
            && forall i: nat :: TagAt(prompt, i) == if i == 0 then 1 + |TAG| else if i == last then 2 + |TAG| else 0
  {
    hide *;
    var body := Escape(Trim(saved));
    RenderIsBlock(introduction, saved);
    PartsHaveNoTag(introduction, Trim(saved));
    BlockTags(introduction, body);
  }

  lemma PartsHaveNoTag(introduction: Introduction, text: string)
    ensures NoTag(Escape(text)) && NoTag(introduction)
  {
    hide Escape, TagAt;
    forall i: nat ensures TagAt(Escape(text), i) == 0 { EscapedHasNoTag(text, i); }
    forall i: nat ensures TagAt(introduction, i) == 0 { IntroductionHasNoTag(introduction, i); }
  }

  lemma {:induction false} EscapeKeepsSome(text: string)
    ensures Escape(text) == "" <==> text == ""
  {
    EscapeIsEach(text);
    hide Escape, TagAt;
  }

  lemma RenderIsBlock(introduction: Introduction, saved: string)
    requires !IsBlank(saved)
    ensures var block := Block(introduction, Escape(Trim(saved)));
            && Render(introduction, saved) == block && OPENING <= block
            && |block| >= |CLOSING| + 2 && block[|block| - |CLOSING| - 2..] == CLOSING + "\n\n"
  {
    hide OPENING, CLOSING, Block, Trim, Escape;
    EscapeKeepsSome(Trim(saved));
    Lines(introduction, Escape(Trim(saved)));
  }

  /** The block line by line. */
  function Block(introduction: Introduction, body: string): string {
    OPENING + "\n" + Below(introduction, body)
  }

  function Below(introduction: Introduction, body: string): string {
    introduction + "\n" + ("" + "\n" + (body + "\n" + (CLOSING + "\n" + "\n")))
  }

  lemma Lines(introduction: Introduction, body: string)
    ensures Block(introduction, body) == OPENING + "\n" + introduction + "\n\n" + body + "\n" + CLOSING + "\n\n"
    ensures OPENING <= Block(introduction, body) && |Block(introduction, body)| >= |CLOSING| + 2 && Block(introduction, body)[|Block(introduction, body)| - |CLOSING| - 2..] == CLOSING + "\n\n"
  {
    hide OPENING, CLOSING;
    assert "\n\n" == "\n" + "\n";
  }

  lemma BlockTags(introduction: Introduction, body: string)
    requires NoTag(body) && NoTag(introduction)
    ensures var last := |Block(introduction, body)| - |CLOSING| - 2;
            last >= 0 && forall i: nat :: TagAt(Block(introduction, body), i) == if i == 0 then 1 + |TAG| else if i == last then 2 + |TAG| else 0
  {
    OpeningTag();
    EndLines();
    assert NoTag("");
    hide OPENING, CLOSING, TAG, TagAt;
    var end := CLOSING + "\n" + "\n";
    LineBefore(body, end, 0, 2 + |TAG|);
    LineBefore("", body + "\n" + end, |body| + 1, 2 + |TAG|);
    LineBefore(introduction, "" + "\n" + (body + "\n" + end), |body| + 2, 2 + |TAG|);
    forall i: nat ensures TagAt(Block(introduction, body), i) == if i == 0 then 1 + |TAG| else if i == |Block(introduction, body)| - |CLOSING| - 2 then 2 + |TAG| else 0 {
      TagsKeepToLines(OPENING, Below(introduction, body), i);
    }
  }

  // ---- saving, reading and the cache ----

  datatype File = File(text: string, mtime: int)

  /** The introduction of every prompt, and the bytes a text takes in a file. */
  datatype Setting = Setting(introduction: Introduction, size: string -> nat)

  datatype Stamp = Missing | Stamp(mtime: int, size: nat)
  datatype Profile = Profile(text: string, saved: bool, chars: nat, maxChars: nat)
  datatype SaveError = TooLong(chars: nat) | WriteFailed

  /** The profile file of each directory, and the prompts cached for each with the stamp they were read under. */
  datatype Store = Store(files: map<string, File>, cache: map<string, (Stamp, string)>)

  function TextIn(s: Store, dir: string): string {
    if dir in s.files then s.files[dir].text else ""
  }

  function StampIn(s: Store, dir: string, setting: Setting): Stamp {
    if dir in s.files then Stamp(s.files[dir].mtime, setting.size(s.files[dir].text)) else Missing
  }

  function ProfileIn(s: Store, dir: string): Profile {
    Profile(TextIn(s, dir), dir in s.files, |TextIn(s, dir)|, MAX_CHARS)
  }

  /** The prompt, and the store with that prompt cached. */
  function Prompt(s: Store, dir: string, setting: Setting): (Store, string) {
    var key := StampIn(s, dir, setting);
    if dir in s.cache && s.cache[dir].0 == key then (s, s.cache[dir].1)
    else
      var prompt := Render(setting.introduction, TextIn(s, dir));
      (s.(cache := s.cache[dir := (key, prompt)]), prompt)
  }

  /** A save that fails on the way to the file changes nothing. */
  function Save(s: Store, dir: string, text: string, mtime: int, written: bool): Store {
    if |text| > MAX_CHARS || !written then s
    else Store(s.files[dir := File(if IsBlank(text) then "" else text, mtime)], s.cache - {dir})
  }

  /** Someone else replaces the file, or removes it. */
  function Replace(s: Store, dir: string, file: Option<File>): Store {
    match file
    case None => s.(files := s.files - {dir})
    case Some(f) => s.(files := s.files[dir := f])
  }

  class Profiles {
    const setting: Setting
    var files: map<string, File>
    var cache: map<string, (Stamp, string)>

    constructor (setting: Setting, files: map<string, File>)
      ensures this.setting == setting && Now() == Store(files, map[])
    {
      this.setting, this.files, cache := setting, files, map[];
    }

    function Now(): Store
      reads this
    {
      Store(files, cache)
    }

    method SaveAboutMe(text: string, dir: string, mtime: int, written: bool) returns (result: Result<Profile, SaveError>)
      modifies this
      ensures Now() == Save(old(Now()), dir, text, mtime, written)
      ensures |text| > MAX_CHARS ==> result == Err(TooLong(|text|)) && Now() == old(Now())
      ensures |text| <= MAX_CHARS && !written ==> result == Err(WriteFailed) && Now() == old(Now())
      ensures |text| <= MAX_CHARS && written ==> result == Ok(Profile(if IsBlank(text) then "" else text, true, if IsBlank(text) then 0 else |text|, MAX_CHARS))
    {
      if |text| > MAX_CHARS { return Err(TooLong(|text|)); }
      if !written { return Err(WriteFailed); }
      files := files[dir := File(if Trim(text) != "" then text else "", mtime)];
      cache := cache - {dir};
      result := Ok(ProfileIn(Now(), dir));
    }

    method AboutMePrompt(dir: string) returns (prompt: string)
      modifies this`cache
      ensures (Now(), prompt) == Prompt(old(Now()), dir, setting)
      ensures CacheAgrees(old(Now()), setting) ==> prompt == Render(setting.introduction, TextIn(Now(), dir)) && CacheAgrees(Now(), setting)
    {
      RenderOfNothing(setting.introduction);
      hide Render;
      var key := StampIn(Now(), dir, setting);
      if dir in cache && cache[dir].0 == key { return cache[dir].1; }
      prompt := Render(setting.introduction, TextIn(Now(), dir));
      cache := cache[dir := (key, prompt)];
    }
  }

  // ---- the cache answers as the file would ----

  /** An entry whose stamp is the file's holds the file's prompt; an entry for a missing file is empty. */
  predicate CacheAgrees(s: Store, setting: Setting) {
    forall dir :: dir in s.cache ==>
      (s.cache[dir].0 == StampIn(s, dir, setting) ==> s.cache[dir].1 == Render(setting.introduction, TextIn(s, dir))) && (s.cache[dir].0 == Missing ==> s.cache[dir].1 == "")
  }

  /** The replaced file's stamp is not the one its cached prompt was read under. */
  predicate Noticed(s: Store, dir: string, file: Option<File>, setting: Setting) {
    file.Some? && dir in s.cache ==> Stamp(file.value.mtime, setting.size(file.value.text)) != s.cache[dir].0
  }

  datatype Action = Saves(dir: string, text: string, mtime: int, written: bool) | Replaces(dir: string, file: Option<File>) | Reads(dir: string)

  function Do(s: Store, a: Action, setting: Setting): Store {
    match a
    case Saves(dir, text, mtime, written) => Save(s, dir, text, mtime, written)
    case Replaces(dir, file) => Replace(s, dir, file)
    case Reads(dir) => Prompt(s, dir, setting).0
  }

  function Run(s: Store, actions: seq<Action>, setting: Setting): Store {
    if actions == [] then s else Do(Run(s, actions[..|actions| - 1], setting), actions[|actions| - 1], setting)
  }

  /** Every outside write of the run is noticed where it happens. */
  predicate AllNoticed(s: Store, actions: seq<Action>, setting: Setting) {
    actions == [] ||
    (var front, last := actions[..|actions| - 1], actions[|actions| - 1];
     AllNoticed(s, front, setting) && (last.Replaces? ==> Noticed(Run(s, front, setting), last.dir, last.file, setting)))
  }

  lemma DoKeepsAgreement(s: Store, a: Action, setting: Setting)
    requires CacheAgrees(s, setting) && (a.Replaces? ==> Noticed(s, a.dir, a.file, setting))
    ensures CacheAgrees(Do(s, a, setting), setting)
  {
    RenderOfNothing(setting.introduction);
    hide Render;
  }

  /** Over any run of saves, reads and noticed outside writes, every prompt is the one freshly made from the file. */
  lemma {:induction false} PromptsStayFresh(s: Store, actions: seq<Action>, setting: Setting, dir: string)
    requires CacheAgrees(s, setting) && AllNoticed(s, actions, setting)
    ensures var now := Run(s, actions, setting);
            CacheAgrees(now, setting) && Prompt(now, dir, setting).1 == Render(setting.introduction, TextIn(now, dir))
  {
    hide Render;
    if actions != [] {
      PromptsStayFresh(s, actions[..|actions| - 1], setting, dir);
      DoKeepsAgreement(Run(s, actions[..|actions| - 1], setting), actions[|actions| - 1], setting);
    }
  }

  /** An outside write that changes the prompt shows in the next one exactly when its stamp differs from the one cached:
      differing from the stamp of the file it replaces is not enough. */
  lemma FreshExactlyWhenNoticed(s: Store, dir: string, file: File, setting: Setting)
    requires dir in s.cache
    ensures s.cache[dir].1 != Render(setting.introduction, file.text) ==>
              (Prompt(Replace(s, dir, Some(file)), dir, setting).1 == Render(setting.introduction, file.text) <==> Noticed(s, dir, Some(file), setting))
  {
    hide Render;
  }

  /** Write, read, write, write: each write changes the file's stamp, and yet the last prompt is that of the first text. */
  lemma ReturningStampIsStale(setting: Setting)
    requires setting.size("ab") == 2 && setting.size("cd") == 2
    ensures var first, second, third := File("ab", 1), File("ab", 2), File("cd", 1);
            var s := Run(Store(map[], map[]), [Replaces("", Some(first)), Reads(""), Replaces("", Some(second)), Replaces("", Some(third))], setting);
            && StampIn(s, "", setting) == Stamp(1, 2) && TextIn(s, "") == "cd"
            && Prompt(s, "", setting).1 == Render(setting.introduction, "ab") != Render(setting.introduction, "cd")
  {
    RendersDiffer(setting.introduction);
    hide Render;
    var w1, r, w2, w3 := Replaces("", Some(File("ab", 1))), Reads(""), Replaces("", Some(File("ab", 2))), Replaces("", Some(File("cd", 1)));
    var empty := Store(map[], map[]);
    var actions := [w1, r, w2, w3];
    assert actions[..3] == [w1, r, w2] && [w1, r, w2][..2] == [w1, r] && [w1, r][..1] == [w1] && [w1][..0] == [];
    assert Run(empty, [w1], setting) == Do(empty, w1, setting);
    assert Run(empty, [w1, r], setting) == Do(Do(empty, w1, setting), r, setting);
    assert Run(empty, [w1, r, w2], setting) == Do(Do(Do(empty, w1, setting), r, setting), w2, setting);
  }

  lemma RenderOfNothing(introduction: Introduction)
    ensures Render(introduction, "") == ""
  {
    hide OPENING, CLOSING;
  }

  lemma RenderOfPlain(introduction: Introduction, text: string)
    requires Plain(text) && Trim(text) == text && text != ""
    ensures Render(introduction, text) == Block(introduction, text)
  {
    PlainIsKept(text, "");
    assert text + "" == text && EscapeEach("") == "";
    hide Plain, Trim, Escape, EscapeEach, TagAt, Render, Block;
    EscapeIsEach(text);
    RenderIsBlock(introduction, text);
  }

  lemma NothingToTrim(text: string)
    requires text != "" && !IsSpace(text[0]) && !IsSpace(text[|text| - 1])
    ensures Trim(text) == text
  {
  }

  lemma RendersDiffer(introduction: Introduction)
    ensures Render(introduction, "ab") != Render(introduction, "cd")
  {
    hide Trim, TrimStart, TrimEnd, Render, Block;
    NothingToTrim("ab");
    NothingToTrim("cd");
    RenderOfPlain(introduction, "ab");
    RenderOfPlain(introduction, "cd");
    BlocksDiffer(introduction, "ab", "cd");
  }

  lemma BlocksDiffer(introduction: Introduction, a: string, b: string)
    requires a != b
    ensures Block(introduction, a) != Block(introduction, b)
  {
    hide OPENING, CLOSING;
    var at := |OPENING| + 1 + |introduction| + 2;
    assert Block(introduction, a)[at..at + |a|] == a && Block(introduction, b)[at..at + |b|] == b;
  }
}
