/**
 * `fillTemplate(template, tokens)` of js/main.js: every `{{ key }}` in a text,
 * with any whitespace inside the braces, is replaced by the token of that key.
 */
module Templates {
  import opened Wrappers
  import opened Text

  /** The characters of `[\w.-]`. */
  predicate IsKeyChar(c: char) {
    ('a' <= c <= 'z') || ('A' <= c <= 'Z') || ('0' <= c <= '9') || c == '_' || c == '.' || c == '-'
  }

  /** The longest prefix of `s` made of key characters. */
  function KeyPrefix(s: string): (r: string)
    ensures |r| <= |s| && s[..|r|] == r
    ensures forall i :: 0 <= i < |r| ==> IsKeyChar(r[i])
    ensures |r| < |s| ==> !IsKeyChar(s[|r|])
  {
    if |s| > 0 && IsKeyChar(s[0]) then [s[0]] + KeyPrefix(s[1..]) else []
  }

  /** A placeholder match at the start of a text: its key and how many characters it spans. */
  datatype Placeholder = Placeholder(key: string, length: nat)

  /**
   * Matches `{{\s*([\w.-]+)\s*}}` at the start of `s`. Since a key character is
   * never a space nor a brace, the greedy reading is the only one, and the
   * match, when there is one, is read off without backtracking.
   */
  function PlaceholderAtStart(s: string): (m: Option<Placeholder>)
    ensures m.Some? ==> 5 <= m.value.length <= |s| && m.value.key != ""
    ensures m.Some? ==> StartsWith(s, "{{")
  {
    if StartsWith(s, "{{") then
      var t := TrimStart(s[2..]);
      var key := KeyPrefix(t);
      var u := TrimStart(t[|key|..]);
      if |key| > 0 && StartsWith(u, "}}") then Some(Placeholder(key, |s| - |u| + 2)) else None
    else None
  }

  /** The text a key is replaced with: the token's string form, or empty when missing or null. */
  function TokenText(tokens: map<string, Option<string>>, key: string): string {
    if key in tokens then tokens[key].GetOr("") else ""
  }

  /**
   * `fillTemplate(template, tokens)`: every placeholder replaced, left to right.
   * A brace that opens no placeholder is copied as it is, so a template without
   * a closing brace comes back unchanged.
   */
  function FillTemplate(template: string, tokens: map<string, Option<string>>): (r: string)
    ensures '}' !in template ==> r == template
    decreases |template|
  {
    if template == "" then ""
    else
      NoPlaceholderWithoutClosingBrace(template);
      match PlaceholderAtStart(template)
      case Some(p) => TokenText(tokens, p.key) + FillTemplate(template[p.length..], tokens)
      case None => [template[0]] + FillTemplate(template[1..], tokens)
  }

  /**
   * What `PlaceholderAtStart` matches has the regex's form: `{{`, spaces, a key
   * of key characters, spaces, `}}`, spanning exactly the reported length.
   */
  lemma PlaceholderAtStartForm(s: string, p: Placeholder)
    requires PlaceholderAtStart(s) == Some(p)
    ensures forall i :: 0 <= i < |p.key| ==> IsKeyChar(p.key[i])
    ensures exists before, after :: AllSpace(before) && AllSpace(after) && s[..p.length] == "{{" + before + p.key + after + "}}"
  {
    assert p.key == KeyPrefix(TrimStart(s[2..]));
    var before, after := MatchPieces(s);
  }

  /** The spaces before and after the key of a match. */
  lemma MatchPieces(s: string) returns (before: string, after: string)
    requires PlaceholderAtStart(s).Some?
    ensures AllSpace(before) && AllSpace(after)
    ensures s[..PlaceholderAtStart(s).value.length] == "{{" + before + PlaceholderAtStart(s).value.key + after + "}}"
  {
    var s2, t, v, u := MatchUnfold(s);
    before, after := Pieces(s, PlaceholderAtStart(s).value.length, s2, t, PlaceholderAtStart(s).value.key, v, u);
  }

  /** The texts `PlaceholderAtStart` reads on its way to a match. */
  lemma MatchUnfold(s: string) returns (s2: string, t: string, v: string, u: string)
    requires PlaceholderAtStart(s).Some?
    ensures StartsWith(s, "{{") && s2 == s[2..] && t == TrimStart(s2)
    ensures PlaceholderAtStart(s).value.key == KeyPrefix(t) && v == t[|KeyPrefix(t)|..]
    ensures u == TrimStart(v) && StartsWith(u, "}}") && PlaceholderAtStart(s).value.length == |s| - |u| + 2
  {
    s2 := s[2..];
    t := TrimStart(s2);
    v := t[|KeyPrefix(t)|..];
    u := TrimStart(v);
  }

  /** The same, from what the trimming and the key scan return. */
  lemma Pieces(s: string, length: int, s2: string, t: string, key: string, v: string, u: string) returns (before: string, after: string)
    requires StartsWith(s, "{{") && s2 == s[2..] && t == TrimStart(s2)
    requires key == KeyPrefix(t) && v == t[|key|..]
    requires u == TrimStart(v) && StartsWith(u, "}}") && length == |s| - |u| + 2
    ensures AllSpace(before) && AllSpace(after) && 0 <= length <= |s| && s[..length] == "{{" + before + key + after + "}}"
  {
    before := s2[..|s2| - |t|];
    after := v[..|v| - |u|];
    SuffixSplit(s2, t);
    PrefixSplit(t, key);
    SuffixSplit(v, u);
    Reassemble(s, length, before, t, key, v, after, u);
  }

  lemma SuffixSplit(x: string, y: string)
    requires |y| <= |x| && x[|x| - |y|..] == y
    ensures x == x[..|x| - |y|] + y
  {
  }

  lemma PrefixSplit(x: string, y: string)
    requires |y| <= |x| && x[..|y|] == y
    ensures x == y + x[|y|..]
  {
  }

  /** The pieces of a match, put back together, are the matched prefix. */
  lemma Reassemble(s: string, length: int, before: string, t: string, key: string, v: string, after: string, u: string)
    requires StartsWith(s, "{{") && s[2..] == before + t
    requires t == key + v && v == after + u && StartsWith(u, "}}")
    requires length == |s| - |u| + 2
    ensures 0 <= length <= |s| && s[..length] == "{{" + before + key + after + "}}"
  {
    var w := "{{" + before + key + after + "}}";
    assert |w| == length;
    forall i | 0 <= i < |w|
      ensures s[i] == w[i]
    {
      if i < 2 {
        assert s[i] == s[..2][i];
      } else if i < 2 + |before| {
        assert s[i] == s[2..][i - 2] == before[i - 2];
      } else if i < 2 + |before| + |key| {
        assert s[i] == s[2..][i - 2] == t[i - 2 - |before|] == key[i - 2 - |before|];
      } else if i < 2 + |before| + |key| + |after| {
        assert s[i] == s[2..][i - 2] == t[i - 2 - |before|] == v[i - 2 - |before| - |key|] == after[i - 2 - |before| - |key|];
      } else {
        var k := i - 2 - |before| - |key| - |after|;
        assert s[i] == s[2..][i - 2] == t[i - 2 - |before|] == v[i - 2 - |before| - |key|] == u[k] == u[..2][k];
      }
    }
  }

  /** No placeholder can start a text that has no closing brace. */
  lemma NoPlaceholderWithoutClosingBrace(s: string)
    ensures '}' !in s ==> PlaceholderAtStart(s) == None
  {
    if PlaceholderAtStart(s).Some? {
      var p := PlaceholderAtStart(s).value;
      var before, after := MatchPieces(s);
      assert s[p.length - 1] == s[..p.length][p.length - 1] == '}';
    }
  }

  /** A `{` that is not followed by another passes through, and the rest is filled after it. */
  lemma FillTemplateLoneBrace(rest: string, tokens: map<string, Option<string>>)
    requires rest == "" || rest[0] != '{'
    ensures FillTemplate("{" + rest, tokens) == "{" + FillTemplate(rest, tokens)
  {
    var s := "{" + rest;
    assert !StartsWith(s, "{{") by {
      if |s| >= 2 { assert s[..2][1] == s[1] == rest[0]; }
    }
    assert s[1..] == rest;
  }

  /** Text without an opening brace passes through untouched, and the rest is filled after it. */
  lemma {:induction false} FillTemplateLiteralPrefix(literal: string, rest: string, tokens: map<string, Option<string>>)
    requires '{' !in literal
    ensures FillTemplate(literal + rest, tokens) == literal + FillTemplate(rest, tokens)
    decreases |literal|
  {
    if literal == "" {
      assert literal + rest == rest;
    } else {
      var s := literal + rest;
      assert FillTemplate(s, tokens) == [literal[0]] + FillTemplate(literal[1..] + rest, tokens) by {
        assert s[0] == literal[0];
        NoPlaceholderWithoutBrace(s);
        assert s[1..] == literal[1..] + rest;
      }
      assert FillTemplate(literal[1..] + rest, tokens) == literal[1..] + FillTemplate(rest, tokens) by {
        FillTemplateLiteralPrefix(literal[1..], rest, tokens);
      }
      ConsSplit(literal, FillTemplate(rest, tokens));
    }
  }

  lemma ConsSplit(s: string, x: string)
    requires s != ""
    ensures [s[0]] + (s[1..] + x) == s + x
  {
    assert [s[0]] + s[1..] == s;
  }

  lemma NoPlaceholderWithoutBrace(s: string)
    requires |s| > 0 && s[0] != '{'
    ensures PlaceholderAtStart(s) == None
  {
    assert !StartsWith(s, "{{") by {
      if |s| >= 2 { assert s[..2][0] == s[0]; }
    }
  }

  /** A template without an opening brace is returned unchanged. */
  lemma FillTemplateWithoutPlaceholders(template: string, tokens: map<string, Option<string>>)
    requires '{' !in template
    ensures FillTemplate(template, tokens) == template
  {
    FillTemplateLiteralPrefix(template, "", tokens);
    assert template + "" == template;
  }

  lemma {:induction false} TrimStartAfterSpaces(spaces: string, s: string)
    requires AllSpace(spaces)
    requires s == "" || !IsSpace(s[0])
    ensures TrimStart(spaces + s) == s
    decreases |spaces|
  {
    if spaces != "" {
      assert (spaces + s)[1..] == spaces[1..] + s;
      TrimStartAfterSpaces(spaces[1..], s);
    }
  }

  lemma {:induction false} KeyPrefixOfKey(key: string, s: string)
    requires forall i :: 0 <= i < |key| ==> IsKeyChar(key[i])
    requires s == "" || !IsKeyChar(s[0])
    ensures KeyPrefix(key + s) == key
    decreases |key|
  {
    if key != "" {
      assert (key + s)[1..] == key[1..] + s;
      KeyPrefixOfKey(key[1..], s);
    }
  }

  /** The pieces `PlaceholderAtStart` reads, once they are known, determine its match. */
  lemma PlaceholderMatch(s: string, key: string, tail: string, rest: string)
    requires StartsWith(s, "{{") && key != ""
    requires TrimStart(s[2..]) == key + tail && KeyPrefix(key + tail) == key
    requires TrimStart(tail) == "}}" + rest
    ensures PlaceholderAtStart(s) == Some(Placeholder(key, |s| - |rest|))
  {
    var t := TrimStart(s[2..]);
    assert t[|KeyPrefix(t)|..] == tail;
    var u := TrimStart(tail);
    assert |u| == |rest| + 2;
    assert u[..2] == "}}";
    assert StartsWith(u, "}}");
    assert PlaceholderAtStart(s).Some?;
    assert PlaceholderAtStart(s).value.key == key;
    assert PlaceholderAtStart(s).value.length == |s| - |u| + 2;
    var m := PlaceholderAtStart(s);
    assert m.value.length == |s| - |rest|;
    assert m.value == Placeholder(key, |s| - |rest|);
  }

  lemma OpeningSplit(s: string, before: string, key: string, after: string, rest: string)
    requires s == "{{" + before + key + after + "}}" + rest
    ensures StartsWith(s, "{{") && s[2..] == before + (key + (after + ("}}" + rest)))
  {
    assert s == "{{" + (before + (key + (after + ("}}" + rest))));
  }

  lemma ClosingNotKeyChar(after: string, rest: string)
    requires AllSpace(after)
    ensures !IsKeyChar((after + ("}}" + rest))[0])
  {
    if after != "" { assert (after + ("}}" + rest))[0] == after[0]; }
  }

  /** `{{`, spaces, a key, spaces, `}}`: a placeholder of that key spanning exactly those characters. */
  lemma PlaceholderOfParts(s: string, before: string, key: string, after: string, rest: string)
    requires AllSpace(before) && AllSpace(after)
    requires key != "" && forall i :: 0 <= i < |key| ==> IsKeyChar(key[i])
    requires s == "{{" + before + key + after + "}}" + rest
    ensures PlaceholderAtStart(s) == Some(Placeholder(key, |s| - |rest|))
  {
    var closing := "}}" + rest;
    var tail := after + closing;
    OpeningSplit(s, before, key, after, rest);
    TrimStartAfterSpaces(before, key + tail);
    ClosingNotKeyChar(after, rest);
    KeyPrefixOfKey(key, tail);
    TrimStartAfterSpaces(after, closing);
    PlaceholderMatch(s, key, tail, rest);
  }

  /** `{{ key }}` (with any spacing inside the braces) is replaced by the token text of `key`. */
  lemma FillTemplatePlaceholder(before: string, key: string, after: string, rest: string, tokens: map<string, Option<string>>)
    requires AllSpace(before) && AllSpace(after)
    requires key != "" && forall i :: 0 <= i < |key| ==> IsKeyChar(key[i])
    ensures FillTemplate("{{" + before + key + after + "}}" + rest, tokens) == TokenText(tokens, key) + FillTemplate(rest, tokens)
  {
    var s := "{{" + before + key + after + "}}" + rest;
    PlaceholderOfParts(s, before, key, after, rest);
    assert s[|s| - |rest|..] == rest;
  }
}
