/**
 * Recipient formatting in `send_ai_email`: a comma-separated string (or a
 * list) of addresses becomes the addresses, stripped, joined with ", ";
 * cc and bcc become "" when not given.
 */
module Recipients {
  import opened Outcomes
  import opened Strings

  /** An address argument: comma-separated text, or a list of addresses. */
  datatype AddressArg = AddressText(text: string) | AddressList(items: seq<string>) | NoAddresses

  function StripAll(xs: seq<string>): (r: seq<string>)
    ensures |r| == |xs|
    ensures forall i :: 0 <= i < |r| ==> r[i] == Strip(xs[i])
  {
    seq(|xs|, i requires 0 <= i < |xs| => Strip(xs[i]))
  }

  /** The address list before joining: the text split on commas, or the list as given; each address stripped. */
  function AddressItems(arg: AddressArg): seq<string>
  {
    match arg
    case AddressText(s) => StripAll(Split(s, ","))
    case AddressList(items) => StripAll(items)
    case NoAddresses => []
  }

  /** `recipients_str`: the stripped addresses joined with ", ". */
  function FormatRecipients(arg: AddressArg): string
  {
    Join(AddressItems(arg), ", ")
  }

  /** `cc_str` / `bcc_str`: "" when the argument is falsy, else the stripped addresses joined with ", ". */
  function FormatCopies(arg: AddressArg): (r: string)
    ensures arg.NoAddresses? || arg == AddressText("") || arg == AddressList([]) ==> r == ""
    ensures !(arg.NoAddresses? || arg == AddressText("") || arg == AddressList([])) ==> r == FormatRecipients(arg)
  {
    if arg.NoAddresses? || arg == AddressText("") || arg == AddressList([]) then ""
    else FormatRecipients(arg)
  }

  predicate NoComma(s: string)
  {
    forall i :: 0 <= i < |s| ==> s[i] != ','
  }

  lemma MatchCommaAt(s: string, i: int)
    requires 0 <= i < |s|
    ensures MatchAt(s, ",", i) <==> s[i] == ','
  {
    assert i + 1 <= |s|;
    if s[i] == ',' {
      assert s[i..i + 1] == [s[i]];
    }
    if MatchAt(s, ",", i) {
      assert s[i..i + 1][0] == s[i];
    }
  }

  /** Splitting on commas leaves no comma in any piece. */
  lemma {:induction false} SplitPiecesHaveNoComma(s: string)
    ensures forall k :: 0 <= k < |Split(s, ",")| ==> NoComma(Split(s, ",")[k])
    decreases |s|
  {
    match Find(s, ",")
    case None =>
      forall i | 0 <= i < |s|
        ensures s[i] != ','
      {
        MatchCommaAt(s, i);
      }
    case Some(j) =>
      forall i | 0 <= i < j
        ensures s[i] != ','
      {
        MatchCommaAt(s, i);
      }
      SplitPiecesHaveNoComma(s[j + 1..]);
  }

  /** Stripping keeps a contiguous piece of the string, so it adds no comma. */
  lemma StripNoComma(s: string)
    requires NoComma(s)
    ensures NoComma(Strip(s))
  {
    var r := Strip(s);
    var k := LeadingSpaces(s);
    StripInside(s);
    forall i | 0 <= i < |r|
      ensures r[i] != ','
    {
      assert r[i] == s[k + i];
    }
  }

  /** A stripped string is left alone by another strip, even with one space in front. */
  lemma StripStable(x: string)
    requires Strip(x) == x
    ensures Strip(" " + x) == x
  {
    assert " " + x == [' '] + x;
    StripLeadingSpace(' ', x);
  }

  lemma StripIdempotent(s: string)
    ensures Strip(Strip(s)) == Strip(s)
  {
    StripEnds(s);
    StripNoop(Strip(s));
  }

  /** The first comma of `head + "," + tail` is the one after `head`, when `head` has none. */
  lemma FirstComma(head: string, tail: string)
    requires NoComma(head)
    ensures Find(head + "," + tail, ",") == Some(|head|)
  {
    var s := head + "," + tail;
    assert s[|head|] == ',';
    MatchCommaAt(s, |head|);
    forall i | 0 <= i < |head|
      ensures !MatchAt(s, ",", i)
    {
      assert s[i] == head[i];
      MatchCommaAt(s, i);
    }
    var r := Find(s, ",");
    assert r.Some?;
    assert r.value == |head|;
  }

  /** Splitting comma-free text gives the text itself. */
  lemma SplitNoComma(s: string)
    requires NoComma(s)
    ensures Split(s, ",") == [s]
  {
    forall i | 0 <= i < |s|
      ensures !MatchAt(s, ",", i)
    {
      MatchCommaAt(s, i);
    }
    assert Find(s, ",").None?;
  }

  /** Splitting text whose first comma follows a comma-free `head` gives `head`, then the pieces after the comma. */
  lemma SplitAtFirstComma(head: string, tail: string)
    requires NoComma(head)
    ensures Split(head + "," + tail, ",") == [head] + Split(tail, ",")
  {
    var s := head + "," + tail;
    FirstComma(head, tail);
    assert s[..|head|] == head;
    assert s[|head| + 1..] == tail;
  }

  /** Two comma-free strings make a comma-free string. */
  lemma ConcatNoComma(p: string, x: string)
    requires NoComma(p) && NoComma(x)
    ensures NoComma(p + x)
  {
    forall i | 0 <= i < |p + x|
      ensures (p + x)[i] != ','
    {
      if i < |p| { assert (p + x)[i] == p[i]; } else { assert (p + x)[i] == x[i - |p|]; }
    }
  }

  /** A ", "-join of several items, after a prefix, is the prefixed first item, a comma, and the rest led by a space. */
  lemma JoinFront(p: string, xs: seq<string>)
    requires |xs| > 1
    ensures p + Join(xs, ", ") == (p + xs[0]) + "," + (" " + Join(xs[1..], ", "))
  {
  }

  /** With comma-free items, splitting the ", "-joined text (after a comma-free prefix) gives the items back, each but the first led by a space. */
  lemma {:induction false} SplitJoined(p: string, xs: seq<string>)
    requires xs != [] && NoComma(p) && forall k :: 0 <= k < |xs| ==> NoComma(xs[k])
    ensures var pieces := Split(p + Join(xs, ", "), ",");
      |pieces| == |xs| && pieces[0] == p + xs[0] && forall k :: 1 <= k < |xs| ==> pieces[k] == " " + xs[k]
    decreases |xs|
  {
    var head := p + xs[0];
    ConcatNoComma(p, xs[0]);
    if |xs| == 1 {
      assert p + Join(xs, ", ") == head;
      SplitNoComma(head);
    } else {
      var rest := Join(xs[1..], ", ");
      var tail := Split(" " + rest, ",");
      JoinFront(p, xs);
      SplitAtFirstComma(head, " " + rest);
      SplitJoined(" ", xs[1..]);
      ShiftPieces(head, tail, xs);
    }
  }

  /** The pieces after the first, each led by a space, line up with the items after the first. */
  lemma ShiftPieces(head: string, tail: seq<string>, xs: seq<string>)
    requires |xs| > 1 && |tail| == |xs| - 1
    requires tail[0] == " " + xs[1..][0] && forall k :: 1 <= k < |xs[1..]| ==> tail[k] == " " + xs[1..][k]
    ensures forall k :: 1 <= k < |xs| ==> ([head] + tail)[k] == " " + xs[k]
  {
    forall k | 1 <= k < |xs|
      ensures ([head] + tail)[k] == " " + xs[k]
    {
      assert ([head] + tail)[k] == tail[k - 1];
      assert xs[1..][k - 1] == xs[k];
    }
  }

  /** An address as formatting leaves it: comma-free and already stripped. */
  predicate Clean(x: string)
  {
    NoComma(x) && Strip(x) == x
  }

  /** The items of formatted text are clean. */
  lemma TextItemsClean(s: string)
    ensures AddressItems(AddressText(s)) != []
    ensures forall k :: 0 <= k < |AddressItems(AddressText(s))| ==> Clean(AddressItems(AddressText(s))[k])
  {
    var pieces := Split(s, ",");
    var xs := StripAll(pieces);
    assert AddressItems(AddressText(s)) == xs;
    SplitPiecesHaveNoComma(s);
    forall k | 0 <= k < |xs|
      ensures Clean(xs[k])
    {
      assert xs[k] == Strip(pieces[k]);
      StripNoComma(pieces[k]);
      StripIdempotent(pieces[k]);
    }
  }

  /** Clean addresses survive joining, splitting and stripping unchanged. */
  lemma CleanRoundTrip(xs: seq<string>)
    requires xs != [] && forall k :: 0 <= k < |xs| ==> Clean(xs[k])
    ensures StripAll(Split(Join(xs, ", "), ",")) == xs
  {
    var joined := Join(xs, ", ");
    assert "" + joined == joined;
    assert NoComma("");
    SplitJoined("", xs);
    var pieces := Split(joined, ",");
    assert pieces[0] == xs[0];
    var ys := StripAll(pieces);
    assert |ys| == |xs|;
    assert ys[0] == xs[0];
    forall k | 1 <= k < |xs|
      ensures ys[k] == xs[k]
    {
      assert pieces[k] == " " + xs[k];
      assert ys[k] == Strip(pieces[k]);
      StripStable(xs[k]);
    }
    SameFromHead(ys, xs);
  }

  lemma SameFromHead(ys: seq<string>, xs: seq<string>)
    requires |ys| == |xs| && xs != [] && ys[0] == xs[0] && forall k :: 1 <= k < |xs| ==> ys[k] == xs[k]
    ensures ys == xs
  {
  }

  /** Formatting text that is already formatted changes nothing. */
  lemma FormatRecipientsIdempotent(s: string)
    ensures FormatRecipients(AddressText(FormatRecipients(AddressText(s)))) == FormatRecipients(AddressText(s))
  {
    TextItemsClean(s);
    CleanRoundTrip(AddressItems(AddressText(s)));
  }
}
