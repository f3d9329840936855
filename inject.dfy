/** The code injector of the static responder: `/(<\/body>|<\/head>)/.exec(contents)` finds the
    earliest closing tag, and `contents.replace(match[0], INJECTED_CODE + match[0])` splices the
    reload script in front of it. The search is case-sensitive. */
module Injector {
  import opened Wrappers
  import opened Text

  const BodyClose: string := "</body>"
  const HeadClose: string := "</head>"

  /** The contents of injected.html. `String.replace` would interpret `$` sequences in it;
      the fragment is taken to hold none. */
  type Fragment = s: string | '$' !in s

  predicate ClosingTagAt(s: string, i: int) {
    OccursAt(s, BodyClose, i) || OccursAt(s, HeadClose, i)
  }

  datatype TagMatch = TagMatch(index: nat, tag: string)

  /** The regular expression's `exec`, scanning from position `from`: the first position where
      either alternative matches, trying `</body>` before `</head>` at each position. */
  function ExecClosingTag(s: string, from: nat): (r: Option<TagMatch>)
    decreases |s| - from
    ensures r.Some? ==> from <= r.value.index && (r.value.tag == BodyClose || r.value.tag == HeadClose)
    ensures r.Some? ==> OccursAt(s, r.value.tag, r.value.index)
    ensures forall j :: from <= j && (r.None? || j < r.value.index) ==> !ClosingTagAt(s, j)
  {
    if from >= |s| then None
    else if OccursAt(s, BodyClose, from) then Some(TagMatch(from, BodyClose))
    else if OccursAt(s, HeadClose, from) then Some(TagMatch(from, HeadClose))
    else ExecClosingTag(s, from + 1)
  }

  /** `s.replace(pat, rep)` with a string pattern: only the first occurrence is replaced. */
  function ReplaceFirst(s: string, pat: string, rep: string): string {
    match IndexOf(s, pat, 0)
    case None => s
    case Some(j) => s[..j] + rep + s[j + |pat|..]
  }

  function Inject(contents: string, code: Fragment): string {
    match ExecClosingTag(contents, 0)
    case None => contents
    case Some(m) => ReplaceFirst(contents, m.tag, code + m.tag)
  }

  /** Where the fragment goes: the earliest index at which either closing tag starts. */
  function InjectionPoint(contents: string): (k: Option<nat>)
    ensures k.Some? ==> ClosingTagAt(contents, k.value)
    ensures forall j :: 0 <= j && (k.None? || j < k.value) ==> !ClosingTagAt(contents, j)
  {
    match ExecClosingTag(contents, 0)
    case None => None
    case Some(m) => Some(m.index)
  }

  /** The string replace finds the tag exactly where the regular expression did. */
  lemma FirstOccurrenceIsMatch(contents: string, m: TagMatch)
    requires ExecClosingTag(contents, 0) == Some(m)
    ensures IndexOf(contents, m.tag, 0) == Some(m.index)
  {
    var r := IndexOf(contents, m.tag, 0);
    assert OccursAt(contents, m.tag, m.index);
    assert r.Some?;
    assert ClosingTagAt(contents, r.value);
  }

  /** The replace puts the fragment in front of the tag the regular expression found. */
  lemma InjectAtMatch(contents: string, code: Fragment, m: TagMatch)
    requires ExecClosingTag(contents, 0) == Some(m)
    ensures m.index <= |contents|
    ensures Inject(contents, code) == contents[..m.index] + code + contents[m.index..]
  {
    FirstOccurrenceIsMatch(contents, m);
    var replaced := ReplaceFirst(contents, m.tag, code + m.tag);
    assert Inject(contents, code) == replaced;
    assert replaced == contents[..m.index] + (code + m.tag) + contents[m.index + |m.tag|..];
    PrependAt(contents, m.index, m.tag, code);
  }

  /** Replacing an occurrence of `tag` by `code + tag` inserts `code` where the tag starts. */
  lemma PrependAt(a: string, k: nat, tag: string, code: string)
    requires OccursAt(a, tag, k)
    ensures a[..k] + (code + tag) + a[k + |tag|..] == a[..k] + code + a[k..]
  {
    assert a[k..] == a[k..k + |tag|] + a[k + |tag|..];
  }

  /** Inserting `code` at `k` keeps everything else: the inserted part reads back, and cutting it
      out gives the original. */
  lemma InsertParts(a: string, k: nat, code: string)
    requires k <= |a|
    ensures var r := a[..k] + code + a[k..];
      && |r| == |a| + |code|
      && r[k..k + |code|] == code
      && r[..k] + r[k + |code|..] == a
  {
    var r := a[..k] + code + a[k..];
    assert r[..k] == a[..k];
    assert r[k + |code|..] == a[k..];
    assert r[k..k + |code|] == code;
    assert a[..k] + a[k..] == a;
  }

  /** Without a closing tag the document is served byte for byte; with one, the fragment sits
      immediately before the earliest tag, everything else is kept, the length grows by
      exactly the fragment's length, and cutting the fragment out gives back the original. */
  lemma InjectSplice(contents: string, code: Fragment)
    ensures InjectionPoint(contents).None? ==> Inject(contents, code) == contents
    ensures InjectionPoint(contents).Some? ==>
      var k := InjectionPoint(contents).value;
      var r := Inject(contents, code);
      && k <= |contents|
      && r == contents[..k] + code + contents[k..]
      && |r| == |contents| + |code|
      && r[k..k + |code|] == code
      && r[..k] + r[k + |code|..] == contents
  {
    var found := ExecClosingTag(contents, 0);
    if found.Some? {
      InjectAtMatch(contents, code, found.value);
      InsertParts(contents, found.value.index, code);
    }
  }

  /** A document whose first closing tag is `</head>` gets the fragment inside its head, even
      when a `</body>` follows. */
  lemma HeadWinsWhenFirst(contents: string, code: Fragment, h: nat)
    requires OccursAt(contents, HeadClose, h)
    requires forall j :: 0 <= j < h ==> !ClosingTagAt(contents, j)
    ensures Inject(contents, code) == contents[..h] + code + contents[h..]
  {
    var k := InjectionPoint(contents);
    assert ClosingTagAt(contents, h);
    assert k.Some?;
    assert ClosingTagAt(contents, k.value);
    InjectSplice(contents, code);
  }
}
