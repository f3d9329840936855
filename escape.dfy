/** The `escape` helper of index.ts/index.js: four global replacements applied in order,
    `&` (unless it already starts an entity), then `<`, `>` and `"`. */
module HtmlEscape {

  /** JavaScript's `\w` without the `u` flag. */
  predicate IsWordChar(c: char) {
    'a' <= c <= 'z' || 'A' <= c <= 'Z' || '0' <= c <= '9' || c == '_'
  }

  /** `t` starts with `\w+;`: the lookahead in `/&(?!\w+;)/g`. */
  predicate EntityTail(t: string)
    decreases |t|
  {
    |t| >= 2 && IsWordChar(t[0]) && (t[1] == ';' || EntityTail(t[1..]))
  }

  /** Every `&` in `t` already starts an entity. */
  predicate AmpSafe(t: string)
    decreases |t|
  {
    |t| == 0 || ((t[0] == '&' ==> EntityTail(t[1..])) && AmpSafe(t[1..]))
  }

  /** `.replace(/&(?!\w+;)/g, "&amp;")`: the lookahead reads the original text. */
  function ReplaceAmp(s: string): string
    decreases |s|
  {
    if |s| == 0 then ""
    else (if s[0] == '&' && !EntityTail(s[1..]) then "&amp;" else [s[0]]) + ReplaceAmp(s[1..])
  }

  /** `.replace(/c/g, rep)` for a single character `c` and a replacement without `$`. */
  function ReplaceChar(s: string, c: char, rep: string): string
    decreases |s|
  {
    if |s| == 0 then ""
    else (if s[0] == c then rep else [s[0]]) + ReplaceChar(s[1..], c, rep)
  }

  function Escape(s: string): string {
    ReplaceChar(ReplaceChar(ReplaceChar(ReplaceAmp(s), '<', "&lt;"), '>', "&gt;"), '"', "&quot;")
  }

  /** A one-pass reading of `Escape`: what each character of the input becomes. */
  function EscapeChar(c: char, rest: string): string {
    if c == '&' then (if EntityTail(rest) then "&" else "&amp;")
    else if c == '<' then "&lt;"
    else if c == '>' then "&gt;"
    else if c == '"' then "&quot;"
    else [c]
  }

  function EscapeEach(s: string): string
    decreases |s|
  {
    if |s| == 0 then "" else EscapeChar(s[0], s[1..]) + EscapeEach(s[1..])
  }

  predicate NoMarkup(t: string) {
    '<' !in t && '>' !in t && '"' !in t
  }

  // ---------------------------------------------------------------------
  // Facts about the single steps

  /** `&name;` followed by anything starts an entity. */
  lemma {:induction false} EntityTailWord(name: string, rest: string)
    requires |name| >= 1
    requires forall i :: 0 <= i < |name| ==> IsWordChar(name[i])
    ensures EntityTail(name + ";" + rest)
    decreases |name|
  {
    var t := name + ";" + rest;
    if |name| > 1 {
      EntityTailWord(name[1..], rest);
      assert t[1..] == name[1..] + ";" + rest;
    }
  }

  lemma {:induction false} AmpSafeNoAmpPrefix(a: string, b: string)
    requires '&' !in a && AmpSafe(b)
    ensures AmpSafe(a + b)
    decreases |a|
  {
    if |a| > 0 {
      AmpSafeNoAmpPrefix(a[1..], b);
      assert (a + b)[0] == a[0] && (a + b)[1..] == a[1..] + b;
    } else {
      assert a + b == b;
    }
  }

  /** An entity `&name;` in front of safe text keeps it safe. */
  lemma EntityPrefixSafe(name: string, rest: string)
    requires |name| >= 1 && '&' !in name
    requires forall i :: 0 <= i < |name| ==> IsWordChar(name[i])
    requires AmpSafe(rest)
    ensures AmpSafe("&" + name + ";" + rest)
  {
    var t := "&" + name + ";" + rest;
    EntityTailWord(name, rest);
    assert t[1..] == name + ";" + rest;
    AmpSafeNoAmpPrefix(name + ";", rest);
    assert name + ";" + rest == (name + ";") + rest;
  }

  lemma {:induction false} EntityTailReplaceAmp(t: string)
    requires EntityTail(t)
    ensures EntityTail(ReplaceAmp(t))
    decreases |t|
  {
    var r := ReplaceAmp(t);
    assert r == [t[0]] + ReplaceAmp(t[1..]);
    if t[1] == ';' {
      assert ReplaceAmp(t[1..]) == [';'] + ReplaceAmp(t[2..]);
    } else {
      EntityTailReplaceAmp(t[1..]);
    }
    assert r[1..] == ReplaceAmp(t[1..]);
  }

  lemma {:induction false} EntityTailReplaceChar(t: string, c: char, rep: string)
    requires EntityTail(t) && !IsWordChar(c) && c != ';'
    ensures EntityTail(ReplaceChar(t, c, rep))
    decreases |t|
  {
    var r := ReplaceChar(t, c, rep);
    assert r == [t[0]] + ReplaceChar(t[1..], c, rep);
    if t[1] == ';' {
      assert ReplaceChar(t[1..], c, rep) == [';'] + ReplaceChar(t[2..], c, rep);
    } else {
      EntityTailReplaceChar(t[1..], c, rep);
    }
    assert r[1..] == ReplaceChar(t[1..], c, rep);
  }

  /** After the first step every `&` starts an entity. */
  lemma {:induction false} ReplaceAmpIsSafe(s: string)
    ensures AmpSafe(ReplaceAmp(s))
    decreases |s|
  {
    if |s| > 0 {
      var tail := ReplaceAmp(s[1..]);
      ReplaceAmpIsSafe(s[1..]);
      if s[0] == '&' && !EntityTail(s[1..]) {
        EntityPrefixSafe("amp", tail);
        assert "&" + "amp" + ";" + tail == "&amp;" + tail;
      } else if s[0] == '&' {
        EntityTailReplaceAmp(s[1..]);
        assert ([s[0]] + tail)[1..] == tail;
      } else {
        assert ([s[0]] + tail)[1..] == tail;
      }
    }
  }

  /** Replacing a markup character by an entity keeps every `&` an entity start. */
  lemma {:induction false} ReplaceCharKeepsSafe(t: string, c: char, name: string)
    requires AmpSafe(t) && c != '&' && c != ';' && !IsWordChar(c)
    requires |name| >= 1 && '&' !in name
    requires forall i :: 0 <= i < |name| ==> IsWordChar(name[i])
    ensures AmpSafe(ReplaceChar(t, c, "&" + name + ";"))
    decreases |t|
  {
    if |t| > 0 {
      var rep := "&" + name + ";";
      var tail := ReplaceChar(t[1..], c, rep);
      ReplaceCharKeepsSafe(t[1..], c, name);
      if t[0] == c {
        EntityPrefixSafe(name, tail);
      } else {
        if t[0] == '&' {
          EntityTailReplaceChar(t[1..], c, rep);
        }
        assert ([t[0]] + tail)[1..] == tail;
      }
    }
  }

  lemma {:induction false} ReplaceCharRemoves(t: string, c: char, rep: string, d: char)
    requires d !in rep && (d == c || d !in t)
    ensures d !in ReplaceChar(t, c, rep)
    decreases |t|
  {
    if |t| > 0 {
      ReplaceCharRemoves(t[1..], c, rep, d);
    }
  }

  lemma {:induction false} ReplaceCharIdentity(t: string, c: char, rep: string)
    requires c !in t
    ensures ReplaceChar(t, c, rep) == t
    decreases |t|
  {
    if |t| > 0 {
      ReplaceCharIdentity(t[1..], c, rep);
    }
  }

  lemma {:induction false} ReplaceAmpIdentity(t: string)
    requires AmpSafe(t)
    ensures ReplaceAmp(t) == t
    decreases |t|
  {
    if |t| > 0 {
      ReplaceAmpIdentity(t[1..]);
    }
  }

  lemma {:induction false} ReplaceCharAppend(a: string, b: string, c: char, rep: string)
    ensures ReplaceChar(a + b, c, rep) == ReplaceChar(a, c, rep) + ReplaceChar(b, c, rep)
    decreases |a|
  {
    if |a| > 0 {
      ReplaceCharAppend(a[1..], b, c, rep);
      assert (a + b)[0] == a[0] && (a + b)[1..] == a[1..] + b;
    } else {
      assert a + b == b;
    }
  }

  // ---------------------------------------------------------------------
  // Properties of escape

  /** The output holds no raw `<`, `>` or `"`, and every `&` in it starts an entity. */
  lemma EscapeIsSafe(s: string)
    ensures NoMarkup(Escape(s))
    ensures AmpSafe(Escape(s))
  {
    var s1 := ReplaceAmp(s);
    var s2 := ReplaceChar(s1, '<', "&lt;");
    var s3 := ReplaceChar(s2, '>', "&gt;");
    var s4 := ReplaceChar(s3, '"', "&quot;");
    ReplaceAmpIsSafe(s);
    ReplaceCharKeepsSafe(s1, '<', "lt");
    assert "&" + "lt" + ";" == "&lt;";
    ReplaceCharKeepsSafe(s2, '>', "gt");
    assert "&" + "gt" + ";" == "&gt;";
    ReplaceCharKeepsSafe(s3, '"', "quot");
    assert "&" + "quot" + ";" == "&quot;";
    ReplaceCharRemoves(s1, '<', "&lt;", '<');
    ReplaceCharRemoves(s2, '>', "&gt;", '<');
    ReplaceCharRemoves(s3, '"', "&quot;", '<');
    ReplaceCharRemoves(s2, '>', "&gt;", '>');
    ReplaceCharRemoves(s3, '"', "&quot;", '>');
    ReplaceCharRemoves(s3, '"', "&quot;", '"');
  }

  /** Text with no markup and no stray `&` is left exactly as it is, and only such text is. */
  lemma EscapeFixpoints(s: string)
    ensures Escape(s) == s <==> NoMarkup(s) && AmpSafe(s)
  {
    EscapeIsSafe(s);
    if NoMarkup(s) && AmpSafe(s) {
      ReplaceAmpIdentity(s);
      ReplaceCharIdentity(s, '<', "&lt;");
      ReplaceCharIdentity(s, '>', "&gt;");
      ReplaceCharIdentity(s, '"', "&quot;");
    }
  }

  /** Escaping twice is escaping once. */
  lemma EscapeIdempotent(s: string)
    ensures Escape(Escape(s)) == Escape(s)
  {
    EscapeIsSafe(s);
    EscapeFixpoints(Escape(s));
  }

  /** The four global replacements act character by character: an `&` that starts
      `\w+;` is kept, every other `&` becomes `&amp;`, and `<`, `>`, `"` become entities. */
  lemma {:induction false} EscapeIsEscapeEach(s: string)
    ensures Escape(s) == EscapeEach(s)
    decreases |s|
  {
    if |s| > 0 {
      var h := if s[0] == '&' && !EntityTail(s[1..]) then "&amp;" else [s[0]];
      var t := ReplaceAmp(s[1..]);
      assert ReplaceAmp(s) == h + t;
      ReplaceCharAppend(h, t, '<', "&lt;");
      var h2 := ReplaceChar(h, '<', "&lt;");
      var t2 := ReplaceChar(t, '<', "&lt;");
      ReplaceCharAppend(h2, t2, '>', "&gt;");
      var h3 := ReplaceChar(h2, '>', "&gt;");
      var t3 := ReplaceChar(t2, '>', "&gt;");
      ReplaceCharAppend(h3, t3, '"', "&quot;");
      var h4 := ReplaceChar(h3, '"', "&quot;");
      assert Escape(s) == h4 + Escape(s[1..]);
      EscapeIsEscapeEach(s[1..]);
      HeadEscape(s[0], s[1..]);
    }
  }

  lemma ReplaceCharSingle(x: char, c: char, rep: string)
    ensures ReplaceChar([x], c, rep) == if x == c then rep else [x]
  {
    assert [x][1..] == "";
  }

  lemma HeadEscape(c: char, rest: string)
    ensures var h := if c == '&' && !EntityTail(rest) then "&amp;" else [c];
            ReplaceChar(ReplaceChar(ReplaceChar(h, '<', "&lt;"), '>', "&gt;"), '"', "&quot;")
            == EscapeChar(c, rest)
  {
    var h := if c == '&' && !EntityTail(rest) then "&amp;" else [c];
    var h2 := ReplaceChar(h, '<', "&lt;");
    var h3 := ReplaceChar(h2, '>', "&gt;");
    if c == '&' && !EntityTail(rest) {
      MarkupFreeChain(h);
    } else {
      ReplaceCharSingle(c, '<', "&lt;");
      if c == '<' {
        MarkupFreeChain(h2);
      } else {
        ReplaceCharSingle(c, '>', "&gt;");
        if c == '>' {
          ReplaceCharIdentity(h3, '"', "&quot;");
        } else {
          ReplaceCharSingle(c, '"', "&quot;");
        }
      }
    }
  }

  /** The three markup replacements leave a string without markup characters alone. */
  lemma MarkupFreeChain(t: string)
    requires NoMarkup(t)
    ensures ReplaceChar(t, '<', "&lt;") == t
    ensures ReplaceChar(ReplaceChar(t, '>', "&gt;"), '"', "&quot;") == t
  {
    ReplaceCharIdentity(t, '<', "&lt;");
    ReplaceCharIdentity(t, '>', "&gt;");
    ReplaceCharIdentity(t, '"', "&quot;");
  }
}
