/** What conditions and prompts can see of a running flow. Template evaluation itself is a parameter. */
module Templates {
  import opened FlowTypes

  /** One `.steps.<name>` entry; `data` is present when the step's JSON output parses. */
  datatype StepData = StepData(output: string, data: Option<string>)

  datatype TemplateData = TemplateData(input: map<string, string>, steps: map<string, StepData>)

  /** The library calls the engine relies on: template evaluation (`None` is an error), the text
      layout of a prompt, and whether a text is valid JSON. */
  datatype Engine = Engine(
    resolve: (string, TemplateData) -> Option<string>,
    render: (map<string, string>, string) -> string,
    validJson: string -> bool)

  /** White space as `strings.TrimSpace` understands it (the Unicode White_Space property). */
  predicate IsSpace(c: char) {
    || '\t' <= c <= '\r' || c == ' ' || c == '\U{0085}' || c == '\U{00A0}' || c == '\U{1680}'
    || '\U{2000}' <= c <= '\U{200A}' || c == '\U{2028}' || c == '\U{2029}' || c == '\U{202F}'
    || c == '\U{205F}' || c == '\U{3000}'
  }

  function TrimLeft(s: string): (r: string)
    ensures |r| <= |s| && r == s[|s| - |r|..]
    ensures forall k :: 0 <= k < |s| - |r| ==> IsSpace(s[k])
    ensures r == "" || !IsSpace(r[0])
  {
    if s != "" && IsSpace(s[0]) then TrimLeft(s[1..]) else s
  }

  function TrimRight(s: string): (r: string)
    ensures |r| <= |s| && r == s[..|r|]
    ensures forall k :: |r| <= k < |s| ==> IsSpace(s[k])
    ensures r == "" || !IsSpace(r[|r| - 1])
  {
    if s != "" && IsSpace(s[|s| - 1]) then TrimRight(s[..|s| - 1]) else s
  }

  function TrimSpace(s: string): (r: string) {
    TrimRight(TrimLeft(s))
  }

  /** Trimming cuts white space from both ends, and nothing else. */
  lemma TrimCutsBothEnds(s: string) returns (a: nat, b: nat)
    ensures a <= b <= |s| && TrimSpace(s) == s[a..b]
    ensures forall k :: 0 <= k < a || b <= k < |s| ==> IsSpace(s[k])
    ensures a < b ==> !IsSpace(s[a]) && !IsSpace(s[b - 1])
  {
    hide IsSpace, TrimLeft, TrimRight;
    var l := TrimLeft(s);
    var r := TrimRight(l);
    a := |s| - |l|;
    b := a + |r|;
    if r != "" {
      assert r[0] == l[0];
    }
    forall k | b <= k < |s| ensures IsSpace(s[k]) {
      assert s[k] == l[k - a];
    }
  }

  /** The ASCII white space, of which blank, tab and line break matter most. */
  lemma AsciiSpaces(c: char)
    requires c < '\U{0080}'
    ensures IsSpace(c) <==> c == ' ' || c == '\t' || c == '\n' || c == '\r' || c as int == 11 || c as int == 12
  {
  }

  function LowerChar(c: char): (r: char) {
    if 'A' <= c <= 'Z' then c - 'A' + 'a' else c
  }

  function Lowered(lower: char -> char, s: string): (r: string) {
    seq(|s|, k requires 0 <= k < |s| => lower(s[k]))
  }

  /** Lower case, for the letters that can matter to IsTruthy; TruthyUnderAnyLowering shows that no
      other letter does. */
  function ToLower(s: string): (r: string) {
    Lowered(LowerChar, s)
  }

  predicate FalsyWord(s: string) {
    s == "" || s == "false" || s == "0" || s == "no"
  }

  predicate IsTruthy(text: string) {
    !FalsyWord(TrimSpace(ToLower(text)))
  }

  /** What Unicode lower case does: it fixes ASCII up to its capital letters, tells white space from
      the rest, and turns no other letter into one that occurs in a falsy word. */
  ghost predicate LowersLetters(lower: char -> char) {
    forall c: char ::
      && (IsSpace(lower(c)) <==> IsSpace(c))
      && (if c < '\U{0080}' then lower(c) == LowerChar(c) else lower(c) !in "falsen0o")
  }

  /** The text is the word, in any mix of capital and small ASCII letters. */
  predicate Spells(text: string, word: string) {
    |text| == |word| && forall k :: 0 <= k < |word| ==> LowerChar(text[k]) == word[k]
  }

  lemma {:induction false} TrimLeftOfLowered(lower: char -> char, s: string)
    requires forall c: char :: IsSpace(lower(c)) <==> IsSpace(c)
    ensures TrimLeft(Lowered(lower, s)) == Lowered(lower, TrimLeft(s))
  {
    hide IsSpace;
    if s != "" {
      assert Lowered(lower, s)[0] == lower(s[0]);
      if IsSpace(s[0]) {
        TrimLeftOfLowered(lower, s[1..]);
        assert Lowered(lower, s)[1..] == Lowered(lower, s[1..]);
      }
    }
  }

  lemma {:induction false} TrimRightOfLowered(lower: char -> char, s: string)
    requires forall c: char :: IsSpace(lower(c)) <==> IsSpace(c)
    ensures TrimRight(Lowered(lower, s)) == Lowered(lower, TrimRight(s))
  {
    hide IsSpace;
    if s != "" {
      assert Lowered(lower, s)[|s| - 1] == lower(s[|s| - 1]);
      if IsSpace(s[|s| - 1]) {
        TrimRightOfLowered(lower, s[..|s| - 1]);
        assert Lowered(lower, s)[..|s| - 1] == Lowered(lower, s[..|s| - 1]);
      }
    }
  }

  lemma LoweredWord(lower: char -> char, t: string, word: string)
    requires LowersLetters(lower) && forall k :: 0 <= k < |word| ==> word[k] in "falsen0o"
    ensures Lowered(lower, t) == word <==> Spells(t, word)
  {
    forall k | 0 <= k < |t| && |t| == |word| ensures lower(t[k]) == word[k] <==> LowerChar(t[k]) == word[k] {
      assert word[k] in "falsen0o";
    }
    if Lowered(lower, t) == word {
      assert forall k :: 0 <= k < |t| ==> Lowered(lower, t)[k] == lower(t[k]);
    }
  }

  lemma AsciiLowersLetters()
    ensures LowersLetters(LowerChar)
  {
  }

  /** A text is falsy exactly when, trimmed, it spells a falsy word. That is what the code computes
      with any lower-casing, so the letters beyond ASCII do not matter. */
  lemma TruthyUnderAnyLowering(lower: char -> char, text: string)
    requires LowersLetters(lower)
    ensures FalsyWord(TrimSpace(Lowered(lower, text))) <==> !IsTruthy(text)
    ensures !IsTruthy(text) <==>
            var t := TrimSpace(text); t == "" || Spells(t, "false") || Spells(t, "0") || Spells(t, "no")
  {
    hide LowersLetters, Lowered, Spells;
    AsciiLowersLetters();
    LoweredIsFalsy(lower, text);
    LoweredIsFalsy(LowerChar, text);
  }

  lemma LoweredIsFalsy(lower: char -> char, text: string)
    requires LowersLetters(lower)
    ensures FalsyWord(TrimSpace(Lowered(lower, text))) <==>
            var t := TrimSpace(text); t == "" || Spells(t, "false") || Spells(t, "0") || Spells(t, "no")
  {
    var t := TrimSpace(text);
    TrimLeftOfLowered(lower, text);
    TrimRightOfLowered(lower, TrimLeft(text));
    hide IsSpace, TrimLeft, TrimRight;
    LoweredWord(lower, t, "false");
    LoweredWord(lower, t, "0");
    LoweredWord(lower, t, "no");
  }

  /** Upper and lower case make no difference to a condition's text, in any script. */
  lemma TruthyIgnoresCase(lower: char -> char, s: string, t: string)
    requires LowersLetters(lower) && Lowered(lower, s) == Lowered(lower, t)
    ensures IsTruthy(s) == IsTruthy(t)
  {
    hide IsTruthy, LowersLetters, Lowered;
    TruthyUnderAnyLowering(lower, s);
    TruthyUnderAnyLowering(lower, t);
  }

  /** Blank texts are falsy. */
  lemma BlankIsFalsy(s: string)
    requires forall k :: 0 <= k < |s| ==> IsSpace(s[k])
    ensures !IsTruthy(s)
  {
    hide IsSpace, IsTruthy, LowersLetters, Spells;
    AsciiLowersLetters();
    TruthyUnderAnyLowering(LowerChar, s);
    assert TrimLeft(s) == "";
  }

  /** A condition holds when its template resolves to a truthy text. */
  predicate Holds(engine: Engine, condition: string, data: TemplateData) {
    var r := engine.resolve(condition, data);
    r.Some? && IsTruthy(r.value)
  }

  /** The prompt of a step, or None when one of its input templates does not resolve. */
  function ResolvePrompt(engine: Engine, step: Step, data: TemplateData): (r: Option<string>) {
    if forall k :: k in step.inputs ==> engine.resolve(step.inputs[k], data).Some? then
      Some(engine.render(
        map k | k in step.inputs :: engine.resolve(step.inputs[k], data).value,
        step.outputSchema))
    else
      None
  }

  /** The prompt the local executor sends; an input template that does not resolve leaves it empty. */
  function PromptOrEmpty(engine: Engine, step: Step, data: TemplateData): (prompt: string) {
    var p := ResolvePrompt(engine, step, data);
    if p.Some? then p.value else ""
  }
}
