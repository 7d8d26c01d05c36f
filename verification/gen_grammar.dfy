/**
 * The taxonomy grammar compiler (go-worker/cmd/gen-grammar/main.go): turns the flat
 * category list of one taxonomy vertical into llama.cpp GBNF grammar text.
 *
 * Every Go routine here is a loop over a string builder or a slice, so each becomes a
 * method with a loop, proved equal to a pure specification function; the properties the
 * compiler promises are lemmas about those functions.
 */
module GenGrammar {
  import opened Wrappers
  import opened Ascii

  // ---------------------------------------------------------------------------
  // Data model (the JSON shape of the taxonomy document)
  // ---------------------------------------------------------------------------

  /** A reference from a category to one of its children. */
  datatype Child = Child(id: string, name: string)

  /** One category of a vertical; `children` lists references, not nested categories. */
  datatype Category = Category(id: string, name: string, children: seq<Child>, level: int)

  /** A vertical (top-level branch) of the taxonomy, with all its categories flattened. */
  datatype BaseCategory = BaseCategory(name: string, categories: seq<Category>)

  datatype Root = Root(verticals: seq<BaseCategory>)

  /** The vertical the compiler selects. */
  const ApparelVertical: string := "Apparel & Accessories"

  // ---------------------------------------------------------------------------
  // clean: category name -> rule-name fragment
  // ---------------------------------------------------------------------------

  /** A character that may appear in a rule name the compiler derives. */
  predicate RuleChar(c: char) { IsLowerOrDigit(c) || c == '-' }

  /** Only `a`-`z`, `0`-`9` and `-`, and never two `-` in a row. */
  predicate IsRuleFragment(t: string)
  {
    && (forall i :: 0 <= i < |t| ==> RuleChar(t[i]))
    && (forall i :: 0 < i < |t| ==> t[i - 1] != '-' || t[i] != '-')
  }

  /**
   * clean reads the last byte of its builder when it meets a rune that is neither an
   * ASCII letter nor a digit; the builder is empty only before the first rune, so the
   * call fails at run time exactly when the first rune is such a rune.
   */
  predicate Cleanable(s: string) { |s| == 0 || IsAsciiAlnum(s[0]) }

  /** One iteration of clean's loop: the builder `b` after seeing rune `r`. */
  function CleanStep(b: string, r: char): string
    requires b != [] || IsAsciiAlnum(r)
  {
    if IsLowerOrDigit(r) then b + [r]
    else if IsUpper(r) then b + [LowerAscii(r)]
    else if b[|b| - 1] != '-' then b + ['-']
    else b
  }

  /** The specification of clean: its builder after the whole input. */
  function Cleaned(s: string): (r: string)
    requires Cleanable(s)
    ensures IsRuleFragment(r)
    ensures |r| <= |s|
    ensures |r| == 0 <==> |s| == 0
    ensures |s| > 0 ==> r[0] == LowerAscii(s[0]) && r[|r| - 1] == (if IsAsciiAlnum(s[|s| - 1]) then LowerAscii(s[|s| - 1]) else '-')
    decreases |s|
  {
    if |s| == 0 then []
    else CleanStep(Cleaned(s[..|s| - 1]), s[|s| - 1])
  }

  /** clean (main.go:123-135): the loop over the runes of `s`. */
  method Clean(s: string) returns (b: string)
    requires Cleanable(s)
    ensures b == Cleaned(s)
  {
    b := [];
    for i := 0 to |s|
      invariant b == Cleaned(s[..i])
    {
      assert s[..i + 1][..i] == s[..i];
      var r := s[i];
      if IsLowerOrDigit(r) {
        b := b + [r];
      } else if IsUpper(r) {
        b := b + [LowerAscii(r)];
      } else if b[|b| - 1] != '-' {
        b := b + ['-'];
      }
    }
    assert s[..|s|] == s;
  }

  /** clean never fails on its own output, and returns it unchanged. */
  lemma {:induction false} CleanIdempotent(s: string)
    requires Cleanable(s)
    ensures Cleanable(Cleaned(s))
    ensures Cleaned(Cleaned(s)) == Cleaned(s)
  {
    var t := Cleaned(s);
    if |t| > 0 {
      assert t[0] == LowerAscii(s[0]);
    }
    FragmentIsFixedPoint(t, |t|);
    assert t[..|t|] == t;
  }

  /** A rule fragment that does not start with `-` is a fixed point of clean, prefix by prefix. */
  lemma {:induction false} FragmentIsFixedPoint(t: string, n: nat)
    requires IsRuleFragment(t) && (|t| > 0 ==> t[0] != '-')
    requires n <= |t|
    ensures Cleanable(t[..n]) && Cleaned(t[..n]) == t[..n]
  {
    if n > 0 {
      FragmentIsFixedPoint(t, n - 1);
      assert t[..n][..n - 1] == t[..n - 1];
      assert t[..n] == t[..n - 1] + [t[n - 1]];
      if t[n - 1] == '-' {
        assert n >= 2;
        assert t[n - 2] != '-';
      }
    }
  }

  /** clean ignores ASCII case: inputs that agree up to ASCII case clean to the same fragment. */
  lemma {:induction false} CleanIgnoresCase(s: string, t: string)
    requires SameUpToCase(s, t)
    requires Cleanable(s)
    ensures Cleanable(t)
    ensures Cleaned(s) == Cleaned(t)
    decreases |s|
  {
    if |s| > 0 {
      var n := |s| - 1;
      SameCaseStep([], s[0], t[0]);
      CleanableDropLast(s);
      CleanableDropLast(t);
      SameCasePrefix(s, t);
      CleanIgnoresCase(s[..n], t[..n]);
      SameCaseStep(Cleaned(s[..n]), s[n], t[n]);
    }
  }

  /** `s` and `t` agree up to ASCII case. */
  predicate SameUpToCase(s: string, t: string)
  {
    |s| == |t| && forall i :: 0 <= i < |s| ==> LowerAscii(s[i]) == LowerAscii(t[i])
  }

  lemma SameCasePrefix(s: string, t: string)
    requires SameUpToCase(s, t) && |s| > 0
    ensures SameUpToCase(s[..|s| - 1], t[..|t| - 1])
  {
  }

  /** Runes equal up to ASCII case are both letters or digits, or neither, and take the same step. */
  lemma SameCaseStep(b: string, r: char, q: char)
    requires LowerAscii(r) == LowerAscii(q)
    ensures IsAsciiAlnum(r) <==> IsAsciiAlnum(q)
    ensures b != [] || IsAsciiAlnum(r) ==> CleanStep(b, r) == CleanStep(b, q)
  {
  }

  // An independent description of clean: map every rune to one character, then drop every
  // `-` whose predecessor in the mapped text is also `-`.

  /** The character clean writes for a rune, before collapsing runs of `-`. */
  function Transliterate(r: char): (c: char)
    ensures RuleChar(c)
  {
    if IsAsciiAlnum(r) then LowerAscii(r) else '-'
  }

  function TransliterateAll(s: string): (t: string)
    ensures |t| == |s|
    ensures forall i :: 0 <= i < |s| ==> t[i] == Transliterate(s[i])
  {
    seq(|s|, i requires 0 <= i < |s| => Transliterate(s[i]))
  }

  /** Drops each `-` that directly follows a `-` of the input text. */
  function Squeeze(t: string): (u: string)
    ensures |t| > 0 ==> |u| > 0 && u[|u| - 1] == t[|t| - 1]
    decreases |t|
  {
    if |t| == 0 then []
    else if |t| > 1 && t[|t| - 1] == '-' && t[|t| - 2] == '-' then Squeeze(t[..|t| - 1])
    else Squeeze(t[..|t| - 1]) + [t[|t| - 1]]
  }

  /** clean is transliteration followed by collapsing every run of `-` to one. */
  lemma {:induction false} CleanIsSqueezedTransliteration(s: string)
    requires Cleanable(s)
    ensures Cleaned(s) == Squeeze(TransliterateAll(s))
    decreases |s|
  {
    if |s| > 0 {
      var n := |s| - 1;
      CleanableDropLast(s);
      CleanIsSqueezedTransliteration(s[..n]);
      TransliterateDropLast(s);
      CleanStepIsSqueezeStep(Cleaned(s[..n]), s[n], TransliterateAll(s));
    }
  }

  lemma CleanableDropLast(s: string)
    requires Cleanable(s) && |s| > 0
    ensures Cleanable(s[..|s| - 1])
  {
    if |s| > 1 {
      assert s[..|s| - 1][0] == s[0];
    }
  }

  lemma TransliterateDropLast(s: string)
    requires |s| > 0
    ensures TransliterateAll(s[..|s| - 1]) == TransliterateAll(s)[..|s| - 1]
  {
  }

  /** The last step of both descriptions: one rune read, one character squeezed in. */
  lemma CleanStepIsSqueezeStep(b: string, r: char, t: string)
    requires |t| > 0 && t[|t| - 1] == Transliterate(r)
    requires b == Squeeze(t[..|t| - 1])
    requires b != [] || IsAsciiAlnum(r)
    ensures CleanStep(b, r) == Squeeze(t)
  {
    var n := |t| - 1;
    if n > 0 {
      assert b[|b| - 1] == t[n - 1];
    }
  }

  // ---------------------------------------------------------------------------
  // generateRule: one production (plus a children rule) per category
  // ---------------------------------------------------------------------------

  /** What generateRule needs of a category so that none of its clean calls fails. */
  predicate RuleReady(c: Category)
  {
    && ((c.level > 0 || |c.children| > 0) ==> Cleanable(c.name))
    && (forall i :: 0 <= i < |c.children| ==> Cleanable(c.children[i].name))
  }

  /** The name of the rule a category defines. */
  function RuleName(c: Category): (n: string)
    requires c.level > 0 ==> Cleanable(c.name)
    ensures |n| >= 9 && n[..9] == "taxonomy-"
    ensures forall i :: 0 <= i < |n| ==> RuleChar(n[i])
    ensures c.level <= 0 ==> n == "taxonomy-inner"
    ensures c.level > 0 ==> n[9..] == Cleaned(c.name)
  {
    if c.level > 0 then "taxonomy" + "-" + Cleaned(c.name)
    else "taxonomy" + "-inner"
  }

  /** The rule a child reference names. */
  function ChildRuleName(ch: Child): string
    requires Cleanable(ch.name)
  {
    "taxonomy-" + Cleaned(ch.name)
  }

  /** The rule names of a category's children, in child order. */
  function ChildRuleNames(children: seq<Child>): (names: seq<string>)
    requires forall i :: 0 <= i < |children| ==> Cleanable(children[i].name)
    ensures |names| == |children|
    ensures forall i :: 0 <= i < |children| ==> names[i] == ChildRuleName(children[i])
  {
    seq(|children|, i requires 0 <= i < |children| => ChildRuleName(children[i]))
  }

  /** `items` joined with `sep` between neighbours. */
  function Join(items: seq<string>, sep: string): string
  {
    if |items| == 0 then ""
    else if |items| == 1 then items[0]
    else items[0] + sep + Join(items[1..], sep)
  }

  const AltPrefix: string := "\ttaxonomy-"
  const AltSeparator: string := " | \n"

  /** One line of a children rule per child: a tab and the child's rule name. */
  function AltLines(children: seq<Child>): (lines: seq<string>)
    requires forall i :: 0 <= i < |children| ==> Cleanable(children[i].name)
    ensures |lines| == |children|
    ensures forall i :: 0 <= i < |children| ==> lines[i] == AltPrefix + Cleaned(children[i].name)
  {
    seq(|children|, i requires 0 <= i < |children| => AltPrefix + Cleaned(children[i].name))
  }

  /** The alternatives of a children rule, separated by ` | ` and a line break. */
  function Alternatives(children: seq<Child>): string
    requires forall i :: 0 <= i < |children| ==> Cleanable(children[i].name)
  {
    Join(AltLines(children), AltSeparator)
  }

  /** The head of the rule a category defines, up to and including its quoted literal. */
  function RuleHead(c: Category): string
    requires c.level > 0 ==> Cleanable(c.name)
  {
    RuleName(c) + " ::= \"" + c.name + "\" "
  }

  /**
   * The specification of generateRule, append by append: the head and literal, then
   * either a blank line (a leaf) or the continuation, `?` when the level is above 0, and
   * the children rule.
   */
  function Rule(c: Category): string
    requires RuleReady(c)
  {
    if |c.children| > 0 then ChildrenOpen(c) + Alternatives(c.children) + "\n)\n\n"
    else RuleHead(c) + "\n\n"
  }

  /** A category with children: its rule up to the first alternative of its children rule. */
  function ChildrenOpen(c: Category): string
    requires RuleReady(c) && |c.children| > 0
  {
    var cn := Cleaned(c.name);
    var cont := RuleHead(c) + "(seperator taxonomy-" + cn + "-children)";
    var opt := cont + (if c.level > 0 then "? \n\n" else "\n\n");
    opt + "taxonomy-" + cn + "-children ::= (\n"
  }

  /**
   * A category with children continues its rule into its children rule; the continuation
   * is optional (`?`) exactly when the category is below the top level.
   */
  lemma ContinuationOptionalIffNested(c: Category)
    requires RuleReady(c) && |c.children| > 0
    ensures var cont := RuleHead(c) + "(seperator taxonomy-" + Cleaned(c.name) + "-children)";
            && |cont| < |Rule(c)| && Rule(c)[..|cont|] == cont
            && (Rule(c)[|cont|] == '?' <==> c.level > 0)
  {
    var cn := Cleaned(c.name);
    var cont := RuleHead(c) + "(seperator taxonomy-" + cn + "-children)";
    var marker := if c.level > 0 then "? \n\n" else "\n\n";
    LongerText(cont, marker, "taxonomy-", cn, "-children ::= (\n", Alternatives(c.children), "\n)\n\n");
  }

  /** A text built by appending to `p` starts with `p`, then with the first character of `m`. */
  lemma LongerText(p: string, m: string, r1: string, r2: string, r3: string, r4: string, r5: string)
    requires |m| > 0
    ensures var t := p + m + r1 + r2 + r3 + r4 + r5;
            |p| < |t| && t[..|p|] == p && t[|p|] == m[0]
  {
    var t := p + m + r1 + r2 + r3 + r4 + r5;
    assert t == p + (m + r1 + r2 + r3 + r4 + r5);
  }

  /** The first `i` items joined, followed by `sep` unless they are all the items: a loop's text so far. */
  function JoinPrefix(items: seq<string>, i: nat, sep: string): string
    requires i <= |items|
  {
    if i == 0 then ""
    else Join(items[..i], sep) + (if i < |items| then sep else "")
  }

  lemma {:induction false} JoinSnoc(items: seq<string>, x: string, sep: string)
    requires |items| > 0
    ensures Join(items + [x], sep) == Join(items, sep) + sep + x
    decreases |items|
  {
    if |items| > 1 {
      assert (items + [x])[1..] == items[1..] + [x];
      JoinSnoc(items[1..], x, sep);
    }
  }

  /** One step of generateRule's loop over the children: the next item, then `sep` unless it is the last. */
  lemma JoinPrefixStep(open: string, items: seq<string>, k: nat, sep: string)
    requires k < |items|
    ensures k + 1 < |items| ==> open + JoinPrefix(items, k + 1, sep) == open + JoinPrefix(items, k, sep) + items[k] + sep
    ensures k + 1 == |items| ==> open + JoinPrefix(items, k + 1, sep) == open + JoinPrefix(items, k, sep) + items[k]
  {
    var last := if k + 1 < |items| then sep else "";
    if k > 0 {
      var j := Join(items[..k], sep);
      assert items[..k + 1] == items[..k] + [items[k]];
      JoinSnoc(items[..k], items[k], sep);
      assert JoinPrefix(items, k + 1, sep) == j + sep + items[k] + last;
      assert JoinPrefix(items, k, sep) == j + sep;
    } else {
      assert items[..1] == [items[0]];
      assert JoinPrefix(items, 1, sep) == items[0] + last;
    }
  }

  /** generateRule's loop over the children (main.go:100-105): one line per child, separated. */
  method AppendAlternatives(open: string, children: seq<Child>) returns (out: string)
    requires forall i :: 0 <= i < |children| ==> Cleanable(children[i].name)
    ensures out == open + Alternatives(children)
  {
    out := open;
    ghost var lines := AltLines(children);
    var k := 0;
    while k < |children|
      invariant 0 <= k <= |children|
      invariant out == open + JoinPrefix(lines, k, AltSeparator)
    {
      var chn := Clean(children[k].name);
      ghost var before := out;
      assert lines[k] == AltPrefix + chn;
      JoinPrefixStep(open, lines, k, AltSeparator);
      out := out + (AltPrefix + chn);
      if k != |children| - 1 {
        out := out + AltSeparator;
        assert out == before + lines[k] + AltSeparator;
      } else {
        assert out == before + lines[k];
      }
      k := k + 1;
    }
    assert lines[..|lines|] == lines;
  }

  /** generateRule (main.go:81-112). */
  method GenerateRule(c: Category) returns (out: string)
    requires RuleReady(c)
    ensures out == Rule(c)
  {
    out := "taxonomy";
    if c.level > 0 {
      var cn := Clean(c.name);
      out := out + "-" + cn;
    } else {
      out := out + "-inner";
    }
    out := out + " ::= \"" + c.name + "\" ";
    assert out == RuleHead(c);
    if |c.children| > 0 {
      var cn := Clean(c.name);
      out := out + "(seperator taxonomy-" + cn + "-children)";
      if c.level > 0 {
        out := out + "? \n\n";
      } else {
        out := out + "\n\n";
      }
      out := out + "taxonomy-" + cn + "-children ::= (\n";
      assert out == ChildrenOpen(c);
      out := AppendAlternatives(out, c.children);
      assert out == ChildrenOpen(c) + Alternatives(c.children);
      out := out + "\n)\n\n";
    } else {
      out := out + "\n\n";
    }
  }

  // A reader for the alternatives text, to show that it names exactly the children's rules.

  /** Splits `t` into its longest prefix of rule characters and the rest. */
  function TakeRuleChars(t: string): (p: (string, string))
    ensures p.0 + p.1 == t
    ensures forall i :: 0 <= i < |p.0| ==> RuleChar(p.0[i])
    ensures p.1 == [] || !RuleChar(p.1[0])
    decreases |t|
  {
    if |t| > 0 && RuleChar(t[0]) then
      var (name, rest) := TakeRuleChars(t[1..]);
      assert [t[0]] + name + rest == [t[0]] + (name + rest);
      ([t[0]] + name, rest)
    else ([], t)
  }

  /** Reads `\ttaxonomy-<name>` items separated by ` | \n`; None when the text has another shape. */
  function ReadAlternatives(t: string): Option<seq<string>>
    decreases |t|
  {
    if |t| >= |AltPrefix| && t[..|AltPrefix|] == AltPrefix then
      var (name, rest) := TakeRuleChars(t[|AltPrefix|..]);
      if rest == [] then Some(["taxonomy-" + name])
      else if |rest| >= |AltSeparator| && rest[..|AltSeparator|] == AltSeparator then
        match ReadAlternatives(rest[|AltSeparator|..])
        case Some(more) => Some(["taxonomy-" + name] + more)
        case None => None
      else None
    else None
  }

  lemma {:induction false} TakeRuleCharsOf(name: string, rest: string)
    requires forall i :: 0 <= i < |name| ==> RuleChar(name[i])
    requires rest == [] || !RuleChar(rest[0])
    ensures TakeRuleChars(name + rest) == (name, rest)
    decreases |name|
  {
    if |name| > 0 {
      assert (name + rest)[1..] == name[1..] + rest;
      TakeRuleCharsOf(name[1..], rest);
      assert [name[0]] + name[1..] == name;
    } else {
      assert name + rest == rest;
    }
  }

  /**
   * The children rule of a category lists the rule of every child once, in child order,
   * and nothing else: reading the alternatives back gives exactly the children's rule names.
   */
  lemma AlternativesNameEachChild(children: seq<Child>)
    requires |children| > 0
    requires forall i :: 0 <= i < |children| ==> Cleanable(children[i].name)
    ensures ReadAlternatives(Alternatives(children)) == Some(ChildRuleNames(children))
  {
    var names := seq(|children|, i requires 0 <= i < |children| => Cleaned(children[i].name));
    assert forall i :: 0 <= i < |names| ==> IsRuleFragment(names[i]);
    assert AltLines(children) == ItemLines(names);
    assert ChildRuleNames(children) == ItemRefs(names);
    ReadJoinedItems(names);
  }

  /** The alternatives lines for rule-name fragments `names`. */
  function ItemLines(names: seq<string>): (lines: seq<string>)
    ensures |lines| == |names| && forall i :: 0 <= i < |names| ==> lines[i] == AltPrefix + names[i]
  {
    seq(|names|, i requires 0 <= i < |names| => AltPrefix + names[i])
  }

  /** The rule references those lines stand for. */
  function ItemRefs(names: seq<string>): (refs: seq<string>)
    ensures |refs| == |names| && forall i :: 0 <= i < |names| ==> refs[i] == "taxonomy-" + names[i]
  {
    seq(|names|, i requires 0 <= i < |names| => "taxonomy-" + names[i])
  }

  lemma {:induction false} ReadJoinedItems(names: seq<string>)
    requires |names| > 0
    requires forall i :: 0 <= i < |names| ==> IsRuleFragment(names[i])
    ensures ReadAlternatives(Join(ItemLines(names), AltSeparator)) == Some(ItemRefs(names))
    decreases |names|
  {
    var lines := ItemLines(names);
    var rest := if |names| == 1 then "" else AltSeparator + Join(lines[1..], AltSeparator);
    JoinHead(lines, AltSeparator);
    AppendAssoc(AltPrefix, names[0], rest);
    ReadOneAlternative(names[0], rest);
    if |names| == 1 {
      assert ItemRefs(names) == [ItemRefs(names)[0]];
    } else {
      assert rest[|AltSeparator|..] == Join(lines[1..], AltSeparator);
      ItemsTail(names);
      ReadJoinedItems(names[1..]);
    }
  }

  lemma ItemsTail(names: seq<string>)
    requires |names| > 0
    ensures ItemLines(names[1..]) == ItemLines(names)[1..]
    ensures ItemRefs(names) == [ItemRefs(names)[0]] + ItemRefs(names[1..])
  {
    assert ItemRefs(names)[1..] == ItemRefs(names[1..]);
  }

  /** A joined list is its first item followed by the separator and the join of the rest. */
  lemma JoinHead(items: seq<string>, sep: string)
    requires |items| > 0
    ensures Join(items, sep) == items[0] + (if |items| == 1 then "" else sep + Join(items[1..], sep))
  {
    if |items| > 1 {
      AppendAssoc(items[0], sep, Join(items[1..], sep));
    }
  }

  /** Reading one `\ttaxonomy-<name>` item, then what follows it. */
  lemma ReadOneAlternative(name: string, rest: string)
    requires IsRuleFragment(name)
    requires rest == [] || (|rest| >= |AltSeparator| && rest[..|AltSeparator|] == AltSeparator)
    ensures rest == [] ==> ReadAlternatives(AltPrefix + (name + rest)) == Some(["taxonomy-" + name])
    ensures rest != [] ==> ReadAlternatives(AltPrefix + (name + rest))
                           == match ReadAlternatives(rest[|AltSeparator|..])
                              case Some(more) => Some(["taxonomy-" + name] + more)
                              case None => None
  {
    var t := AltPrefix + (name + rest);
    assert t[..|AltPrefix|] == AltPrefix;
    assert t[|AltPrefix|..] == name + rest;
    if rest != [] {
      assert rest[0] == AltSeparator[0];
    }
    TakeRuleCharsOf(name, rest);
  }

  // ---------------------------------------------------------------------------
  // findBaseCategory and the whole grammar
  // ---------------------------------------------------------------------------

  /** findBaseCategory (main.go:114-121): the first vertical with exactly this name. */
  method FindBaseCategory(root: Root, name: string) returns (r: Result<BaseCategory, string>)
    ensures r.Ok? ==> exists i :: 0 <= i < |root.verticals| && root.verticals[i] == r.value
                        && (forall j :: 0 <= j < i ==> root.verticals[j].name != name)
    ensures r.Ok? ==> r.value.name == name
    ensures r.Err? <==> forall i :: 0 <= i < |root.verticals| ==> root.verticals[i].name != name
    ensures r.Err? ==> r.error == "base category not found: " + name
  {
    for i := 0 to |root.verticals|
      invariant forall j :: 0 <= j < i ==> root.verticals[j].name != name
    {
      if root.verticals[i].name == name {
        return Ok(root.verticals[i]);
      }
    }
    return Err("base category not found: " + name);
  }

  /** The text of a JSON object key in the grammar: the quoted `"name":` as a GBNF literal. */
  function FieldKey(name: string): string { @"""\""" + name + @"\"":""" }

  const EnvelopeOpen: string := @"root ::= ""{"" ws "
  const ValueThenComma: string := @" ws string ws "","" ws "
  const EnvelopeClose: string := @" ws taxonomy ws ""}"""

  /** The root rule of the fixed grammar head: the JSON envelope the model must emit. */
  const EnvelopeRule: string :=
    EnvelopeOpen + FieldKey("title") + ValueThenComma + FieldKey("description") + ValueThenComma
    + FieldKey("taxonomy") + EnvelopeClose

  /** `key` occurs in `text` at position `i`. */
  predicate KeyAt(text: string, key: string, i: int)
  {
    0 <= i && i + |key| <= |text| && text[i..i + |key|] == key
  }

  predicate FieldAt(text: string, name: string, i: int)
  {
    KeyAt(text, FieldKey(name), i)
  }

  /** Three keys laid out with fixed text around and between them occur in that order. */
  lemma KeysInOrder(open: string, k1: string, mid: string, k2: string, k3: string, close: string)
    requires |k1| > 0 && |k2| > 0
    ensures var t := open + k1 + mid + k2 + mid + k3 + close;
            && KeyAt(t, k1, |open|)
            && KeyAt(t, k2, |open| + |k1| + |mid|)
            && KeyAt(t, k3, |open| + |k1| + |mid| + |k2| + |mid|)
  {
    var t := open + k1 + mid + k2 + mid + k3 + close;
    var i2 := |open| + |k1| + |mid|;
    var i3 := i2 + |k2| + |mid|;
    assert t == open + k1 + (mid + k2 + mid + k3 + close);
    assert t == (open + k1 + mid) + k2 + (mid + k3 + close);
    assert t == (open + k1 + mid + k2 + mid) + k3 + close;
  }

  /** The envelope asks for the keys `title`, `description` and `taxonomy`, in that order. */
  lemma EnvelopeFieldsInOrder()
    ensures exists i1, i2, i3 :: 0 <= i1 < i2 < i3 && FieldAt(EnvelopeRule, "title", i1)
              && FieldAt(EnvelopeRule, "description", i2) && FieldAt(EnvelopeRule, "taxonomy", i3)
  {
    var k1, k2, k3 := FieldKey("title"), FieldKey("description"), FieldKey("taxonomy");
    KeysInOrder(EnvelopeOpen, k1, ValueThenComma, k2, k3, EnvelopeClose);
    var i1 := |EnvelopeOpen|;
    var i2 := i1 + |k1| + |ValueThenComma|;
    var i3 := i2 + |k2| + |ValueThenComma|;
    assert FieldAt(EnvelopeRule, "title", i1) && FieldAt(EnvelopeRule, "description", i2) && FieldAt(EnvelopeRule, "taxonomy", i3);
  }

  /** The fixed grammar head (main.go:66-72): the envelope and the shared rules. */
  const Header: string :=
    EnvelopeRule + "\n"
    + @"ws ::= [ \t\n\r]*" + "\n"
    + @"string ::= ""\"""" char* ""\""""" + "\n"
    + @"char ::= [^""\\] | ""\\"" [""\\/bfnrt]" + "\n"
    + @"seperator ::= "" > """ + "\n"
    + @"taxonomy ::= ""\"""" taxonomy-inner ""\""""" + "\n"

  /** The texts of `parts`, one after the other. */
  function Concat(parts: seq<string>): string
  {
    if |parts| == 0 then "" else Concat(parts[..|parts| - 1]) + parts[|parts| - 1]
  }

  lemma AppendAssoc(a: string, b: string, c: string)
    ensures (a + b) + c == a + (b + c)
  {
  }

  /** One rule text per category, in list order. */
  function RuleTexts(cats: seq<Category>): (texts: seq<string>)
    requires forall i :: 0 <= i < |cats| ==> RuleReady(cats[i])
    ensures |texts| == |cats|
    ensures forall i :: 0 <= i < |cats| ==> texts[i] == Rule(cats[i])
  {
    seq(|cats|, i requires 0 <= i < |cats| && RuleReady(cats[i]) => Rule(cats[i]))
  }

  /** Each part sits in the concatenation between the parts before and after it. */
  lemma {:induction false} PartInPlace(parts: seq<string>, i: nat)
    requires i < |parts|
    ensures Concat(parts) == Concat(parts[..i]) + parts[i] + Concat(parts[i + 1..])
    decreases |parts|
  {
    var n := |parts| - 1;
    if i == n {
      assert parts[..n] == parts[..i];
      assert parts[i + 1..] == [];
    } else {
      var init, tail := parts[..n], parts[i + 1..];
      PartInPlace(init, i);
      assert init[..i] == parts[..i] && init[i] == parts[i];
      assert init[i + 1..] == tail[..|tail| - 1] && tail[|tail| - 1] == parts[n];
      var front, mid := Concat(parts[..i]) + parts[i], Concat(init[i + 1..]);
      calc {
        Concat(parts);
        Concat(init) + parts[n];
        (front + mid) + parts[n];
        { AppendAssoc(front, mid, parts[n]); }
        front + (mid + parts[n]);
        front + Concat(tail);
      }
    }
  }

  /**
   * The grammar holds every category's rule once per occurrence in the input, in input
   * order: the rule of category `i` sits between those of the categories before and after it.
   */
  lemma RuleInPlace(cats: seq<Category>, i: nat)
    requires forall k :: 0 <= k < |cats| ==> RuleReady(cats[k])
    requires i < |cats|
    ensures Concat(RuleTexts(cats))
         == Concat(RuleTexts(cats)[..i]) + Rule(cats[i]) + Concat(RuleTexts(cats)[i + 1..])
  {
    PartInPlace(RuleTexts(cats), i);
  }

  /** main's loop (main.go:66-76): the header followed by every category's rule. */
  method BuildGrammar(cats: seq<Category>) returns (g: string)
    requires forall i :: 0 <= i < |cats| ==> RuleReady(cats[i])
    ensures g == Header + Concat(RuleTexts(cats))
  {
    ghost var texts := RuleTexts(cats);
    g := Header;
    for i := 0 to |cats|
      invariant g == Header + Concat(texts[..i])
    {
      var rule := GenerateRule(cats[i]);
      ConcatSnoc(Header, texts, i);
      g := g + rule;
    }
    assert texts[..|cats|] == texts;
  }

  /** Appending the next part to a running concatenation. */
  lemma ConcatSnoc(head: string, parts: seq<string>, i: nat)
    requires i < |parts|
    ensures head + Concat(parts[..i]) + parts[i] == head + Concat(parts[..i + 1])
  {
    assert parts[..i + 1][..i] == parts[..i];
    AppendAssoc(head, Concat(parts[..i]), parts[i]);
  }

  /** Vertical `i` is the first one named `name`. */
  predicate FirstNamed(root: Root, name: string, i: int)
  {
    && 0 <= i < |root.verticals| && root.verticals[i].name == name
    && forall j :: 0 <= j < i ==> root.verticals[j].name != name
  }

  /**
   * What main needs of the taxonomy: every category of the apparel vertical it selects
   * (the first one so named) can be turned into a rule. Later verticals are never read.
   */
  predicate CompilableRoot(root: Root)
  {
    forall i, k :: 0 <= i < |root.verticals| && FirstNamed(root, ApparelVertical, i)
      && 0 <= k < |root.verticals[i].categories|
      ==> RuleReady(root.verticals[i].categories[k])
  }

  /**
   * Verticals after the selected one are never read: appending any verticals, even another
   * `Apparel & Accessories` whose names cannot be cleaned, keeps the taxonomy compilable.
   */
  lemma LaterVerticalsNotRead(root: Root, i: int, extra: seq<BaseCategory>)
    requires CompilableRoot(root) && FirstNamed(root, ApparelVertical, i)
    ensures CompilableRoot(Root(root.verticals + extra))
  {
    var longer := Root(root.verticals + extra);
    forall i', k | 0 <= i' < |longer.verticals| && FirstNamed(longer, ApparelVertical, i')
                   && 0 <= k < |longer.verticals[i'].categories|
      ensures RuleReady(longer.verticals[i'].categories[k])
    {
      assert longer.verticals[i] == root.verticals[i];
      assert i' < |root.verticals| ==> longer.verticals[i'] == root.verticals[i'];
      assert i' == i;
      assert FirstNamed(root, ApparelVertical, i');
    }
  }

  /** The compiling part of main (main.go:57-76): select the apparel vertical, emit its grammar. */
  method CompileGrammar(root: Root) returns (r: Result<string, string>)
    requires CompilableRoot(root)
    ensures r.Err? <==> forall i :: 0 <= i < |root.verticals| ==> root.verticals[i].name != ApparelVertical
    ensures r.Ok? ==> exists i :: FirstNamed(root, ApparelVertical, i)
                        && r.value == Header + Concat(RuleTexts(root.verticals[i].categories))
  {
    var found := FindBaseCategory(root, ApparelVertical);
    match found {
      case Err(e) =>
        r := Err(e);
      case Ok(vertical) =>
        ghost var i :| 0 <= i < |root.verticals| && root.verticals[i] == vertical
                 && (forall j :: 0 <= j < i ==> root.verticals[j].name != ApparelVertical);
        assert FirstNamed(root, ApparelVertical, i);
        var g := BuildGrammar(vertical.categories);
        r := Ok(g);
    }
  }
}
