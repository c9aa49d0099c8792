/**
 * The fallback `html2text` used when the framework provides none: every
 * `<...>` tag becomes a space, every run of whitespace one space, and the
 * ends are stripped. The two regular expressions are written out as
 * left-to-right scans with the matching rules of Python's `re.sub`.
 */
module HtmlText {
  import opened Outcomes
  import opened Strings

  /** No `<` is followed, anywhere later, by a `>`: nothing that `<[^>]*>` would match. */
  predicate NoTag(s: string)
  {
    forall i, j :: 0 <= i < j < |s| && s[i] == '<' ==> s[j] != '>'
  }

  /** No two neighbouring characters are both whitespace. */
  predicate SingleSpaced(s: string)
  {
    forall i, j :: 0 <= i < |s| && 0 <= j < |s| && j == i + 1 ==> !(IsSpace(s[i]) && IsSpace(s[j]))
  }

  /** The only whitespace character left is the plain space. */
  predicate PlainSpaces(s: string)
  {
    forall i :: 0 <= i < |s| && IsSpace(s[i]) ==> s[i] == ' '
  }

  /** `r` sits in `s` from index `k` on, character by character. */
  predicate Within(s: string, r: string, k: int)
  {
    0 <= k && k + |r| <= |s| && forall j :: 0 <= j < |r| ==> r[j] == s[k + j]
  }

  /** The index of the first `>`, if any. */
  function FirstClose(s: string): (r: Option<nat>)
    ensures r.Some? ==> r.value < |s| && s[r.value] == '>' && forall k :: 0 <= k < r.value ==> s[k] != '>'
    ensures r.None? ==> '>' !in s
  {
    if s == [] then None
    else if s[0] == '>' then Some(0)
    else match FirstClose(s[1..]) { case None => None case Some(k) => Some(k + 1) }
  }

  /**
   * `re.sub(r'<[^>]*>', ' ', s)`: a `<` with a `>` somewhere after it starts
   * a tag that runs to the first such `>`; a `<` with none after it is text.
   */
  function StripTags(s: string): (r: string)
    decreases |s|
  {
    if s == [] then []
    else if s[0] == '<' && FirstClose(s[1..]).Some? then
      [' '] + StripTags(s[1..][FirstClose(s[1..]).value + 1..])
    else [s[0]] + StripTags(s[1..])
  }

  /** Text with no `<` is left as it is. */
  lemma {:induction false} StripTagsPlain(s: string)
    requires '<' !in s
    ensures StripTags(s) == s
  {
    if s != [] {
      assert '<' !in s[1..] by {
        forall k | 0 <= k < |s[1..]|
          ensures s[1..][k] != '<'
        {
          assert s[1..][k] == s[k + 1];
        }
      }
      StripTagsPlain(s[1..]);
    }
  }

  /** Text with no `>` is left as it is. */
  lemma {:induction false} StripTagsNoClose(s: string)
    requires '>' !in s
    ensures StripTags(s) == s
  {
    if s != [] {
      assert '>' !in s[1..] by {
        forall k | 0 <= k < |s[1..]|
          ensures s[1..][k] != '>'
        {
          assert s[1..][k] == s[k + 1];
        }
      }
      StripTagsNoClose(s[1..]);
    }
  }

  /** A character other than `<` in front keeps a text free of tags. */
  lemma NoTagCons(c: char, s: string)
    requires c != '<' && NoTag(s)
    ensures NoTag([c] + s)
  {
    forall i, j | 0 <= i < j < |[c] + s| && ([c] + s)[i] == '<'
      ensures ([c] + s)[j] != '>'
    {
      assert ([c] + s)[i] == s[i - 1];
      assert ([c] + s)[j] == s[j - 1];
    }
  }

  /** After `StripTags` no tag is left. */
  lemma {:induction false} StripTagsLeavesNoTag(s: string)
    ensures NoTag(StripTags(s))
    decreases |s|
  {
    if s != [] {
      if s[0] == '<' && FirstClose(s[1..]).Some? {
        StripTagsLeavesNoTag(s[1..][FirstClose(s[1..]).value + 1..]);
        NoTagCons(' ', StripTags(s[1..][FirstClose(s[1..]).value + 1..]));
      } else if s[0] == '<' {
        StripTagsNoClose(s[1..]);
        assert [s[0]] + s[1..] == s;
      } else {
        StripTagsLeavesNoTag(s[1..]);
        NoTagCons(s[0], StripTags(s[1..]));
      }
    }
  }

  /** `re.sub(r'\s+', ' ', s)`: each maximal run of whitespace becomes one space. */
  function Collapse(s: string): (r: string)
    decreases |s|
    ensures |r| <= |s|
    ensures s != [] ==> r != [] && r[0] == (if IsSpace(s[0]) then ' ' else s[0])
  {
    if s == [] then []
    else if IsSpace(s[0]) then
      assert LStrip(s) == LStrip(s[1..]);
      [' '] + Collapse(LStrip(s))
    else [s[0]] + Collapse(s[1..])
  }

  /** After `Collapse` whitespace comes one plain space at a time. */
  lemma {:induction false} CollapseSpaces(s: string)
    ensures SingleSpaced(Collapse(s)) && PlainSpaces(Collapse(s))
    decreases |s|
  {
    if s != [] {
      var rest := if IsSpace(s[0]) then LStrip(s) else s[1..];
      if IsSpace(s[0]) {
        assert LStrip(s) == LStrip(s[1..]);
      }
      CollapseSpaces(rest);
      var r := Collapse(s);
      var t := Collapse(rest);
      assert r == [r[0]] + t;
      if IsSpace(s[0]) {
        LStripStart(s);
      }
      forall i, j | 0 <= i && j == i + 1 && j < |r|
        ensures !(IsSpace(r[i]) && IsSpace(r[j]))
      {
        if 0 < i {
          assert r[i] == t[i - 1] && r[j] == t[i];
        }
      }
      forall i | 0 <= i < |r| && IsSpace(r[i])
        ensures r[i] == ' '
      {
        if 0 < i {
          assert r[i] == t[i - 1];
        }
      }
    }
  }

  /** A character that is not whitespace and is absent from the text stays absent after `Collapse`. */
  lemma {:induction false} CollapseKeepsAbsent(s: string, c: char)
    requires !IsSpace(c) && c !in s
    ensures c !in Collapse(s)
    decreases |s|
  {
    if s != [] {
      var rest := if IsSpace(s[0]) then LStrip(s) else s[1..];
      if IsSpace(s[0]) {
        assert LStrip(s) == LStrip(s[1..]);
        assert rest == s[|s| - |rest|..];
      }
      assert c !in rest;
      CollapseKeepsAbsent(rest, c);
      assert Collapse(s) == [Collapse(s)[0]] + Collapse(rest);
    }
  }

  /** A piece of a text without tags has no tags. */
  lemma NoTagInside(s: string, r: string, k: int)
    requires NoTag(s) && Within(s, r, k)
    ensures NoTag(r)
  {
    forall i, j | 0 <= i < j < |r| && r[i] == '<'
      ensures r[j] != '>'
    {
      assert r[i] == s[k + i] && r[j] == s[k + j];
    }
  }

  /** `Collapse` creates no tag. */
  lemma {:induction false} CollapseKeepsNoTag(s: string)
    requires NoTag(s)
    ensures NoTag(Collapse(s))
    decreases |s|
  {
    if s != [] {
      var r := Collapse(s);
      if IsSpace(s[0]) {
        var rest := LStrip(s);
        assert LStrip(s) == LStrip(s[1..]);
        NoTagInside(s, rest, LeadingSpaces(s));
        CollapseKeepsNoTag(rest);
        NoTagCons(' ', Collapse(rest));
      } else if s[0] == '<' {
        assert '>' !in s[1..] by {
          forall k | 0 <= k < |s[1..]|
            ensures s[1..][k] != '>'
          {
            assert s[1..][k] == s[k + 1];
          }
        }
        CollapseKeepsAbsent(s[1..], '>');
        assert r == ['<'] + Collapse(s[1..]);
      } else {
        NoTagInside(s, s[1..], 1);
        CollapseKeepsNoTag(s[1..]);
        NoTagCons(s[0], Collapse(s[1..]));
      }
    }
  }

  /** A piece of a text keeps its spacing properties. */
  lemma SpacingInside(s: string, r: string, k: int)
    requires SingleSpaced(s) && PlainSpaces(s) && Within(s, r, k)
    ensures SingleSpaced(r) && PlainSpaces(r)
  {
    forall i, j | 0 <= i && j == i + 1 && j < |r|
      ensures !(IsSpace(r[i]) && IsSpace(r[j]))
    {
      assert r[i] == s[k + i] && r[j] == s[k + j];
    }
    forall i | 0 <= i < |r| && IsSpace(r[i])
      ensures r[i] == ' '
    {
      assert r[i] == s[k + i];
    }
  }

  /** The fallback `html2text`. */
  function Html2Text(html: string): string
  {
    Strip(Collapse(StripTags(html)))
  }

  /** Stripping a text keeps it free of tags and singly spaced. */
  lemma StripKeepsClean(s: string)
    requires NoTag(s) && SingleSpaced(s) && PlainSpaces(s)
    ensures NoTag(Strip(s)) && SingleSpaced(Strip(s)) && PlainSpaces(Strip(s))
  {
    StripInside(s);
    NoTagInside(s, Strip(s), LeadingSpaces(s));
    SpacingInside(s, Strip(s), LeadingSpaces(s));
  }

  /** The text has no tag, no whitespace at its ends, and only single plain spaces inside. */
  lemma Html2TextClean(html: string)
    ensures var t := Html2Text(html);
            NoTag(t) && SingleSpaced(t) && PlainSpaces(t)
            && (t != [] ==> !IsSpace(t[0]) && !IsSpace(t[|t| - 1]))
  {
    var collapsed := Collapse(StripTags(html));
    StripTagsLeavesNoTag(html);
    CollapseKeepsNoTag(StripTags(html));
    CollapseSpaces(StripTags(html));
    StripKeepsClean(collapsed);
    StripEnds(collapsed);
  }

  /** Text that is already clean and has no `<` comes back unchanged. */
  lemma Html2TextPlain(text: string)
    requires '<' !in text && SingleSpaced(text) && PlainSpaces(text)
    requires text != [] ==> !IsSpace(text[0]) && !IsSpace(text[|text| - 1])
    ensures Html2Text(text) == text
  {
    StripTagsPlain(text);
    CollapseClean(text);
    StripNoop(text);
  }

  /** `Collapse` leaves single plain spaces as they are. */
  lemma {:induction false} CollapseClean(s: string)
    requires SingleSpaced(s) && PlainSpaces(s)
    ensures Collapse(s) == s
    decreases |s|
  {
    if s != [] {
      SpacingInside(s, s[1..], 1);
      if IsSpace(s[0]) {
        assert |s| > 1 ==> !IsSpace(s[1]);
        assert s[1..] != [] ==> s[1..][0] == s[1];
        assert LeadingSpaces(s[1..]) == 0;
        assert LeadingSpaces(s) == 1;
      }
      CollapseClean(s[1..]);
      assert [s[0]] + s[1..] == s;
    }
  }
}
