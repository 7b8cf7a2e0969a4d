/** The settings screen's avatar fallback: the user's initials. */
module Settings {
  import opened Basics
  import opened Text

  /** `initials`: the first character of the first two space-separated words of the
      name, upper-cased; `""` when there is no user name. */
  function Initials(name: Option<string>): (r: string)
    ensures name.None? ==> r == []
    ensures name.Some? ==> |r| == if |Words(name.value)| >= 2 then 2 else |Words(name.value)|
    ensures forall i :: 0 <= i < |r| ==> !('a' <= r[i] <= 'z')
    ensures name.Some? && |r| > 0 ==>
      |WithoutSpaces(name.value)| > 0 && r[0] == UpperChar(WithoutSpaces(name.value)[0])
    ensures name.Some? && |r| == 2 ==> r[1] == UpperChar(Words(name.value)[1][0])
  {
    match name
    case None => []
    case Some(n) =>
      var ws := Words(n);
      var first := if |ws| > 0 then ws[0][..1] else [];
      var second := if |ws| > 1 then ws[1][..1] else [];
      assert |ws| > 0 ==> Concat(ws) == ws[0] + Concat(ws[1..]);
      Upper(first + second)
  }

  /** Leading spaces never produce an empty word, so they do not change the initials. */
  lemma InitialsIgnoreLeadingSpace(n: string)
    ensures Initials(Some(" " + n)) == Initials(Some(n))
  {
    assert (" " + n)[1..] == n;
  }

  /** A name that is nothing but spaces has no initials. */
  lemma BlankNameHasNoInitials(n: string)
    requires forall i :: 0 <= i < |n| ==> n[i] == ' '
    ensures Initials(Some(n)) == []
  {
    WordsEmptyIff(n);
  }

  /** A name made of a single word has exactly one initial, its first letter upper-cased. */
  lemma SingleWordOneInitial(n: string)
    requires |n| > 0 && forall i :: 0 <= i < |n| ==> n[i] != ' '
    ensures Initials(Some(n)) == [UpperChar(n[0])]
  {
    LeadingWordAll(n);
    assert n[|n|..] == [];
  }

  lemma {:induction false} LeadingWordAll(s: string)
    requires forall i :: 0 <= i < |s| ==> s[i] != ' '
    ensures LeadingWord(s) == s
    decreases |s|
  {
    if |s| > 0 {
      LeadingWordAll(s[1..]);
    }
  }

  /** Two words separated by any run of spaces give both initials. */
  lemma TwoWordsTwoInitials(a: string, gap: string, b: string)
    requires |a| > 0 && forall i :: 0 <= i < |a| ==> a[i] != ' '
    requires |b| > 0 && forall i :: 0 <= i < |b| ==> b[i] != ' '
    requires |gap| > 0 && forall i :: 0 <= i < |gap| ==> gap[i] == ' '
    ensures Initials(Some(a + gap + b)) == [UpperChar(a[0]), UpperChar(b[0])]
  {
    var s := a + gap + b;
    LeadingWordPrefix(a, gap + b);
    assert s == a + (gap + b);
    assert s[|a|..] == gap + b;
    WordsAfterSpaces(gap, b);
    LeadingWordAll(b);
    assert b[|b|..] == [];
  }

  lemma {:induction false} LeadingWordPrefix(a: string, rest: string)
    requires forall i :: 0 <= i < |a| ==> a[i] != ' '
    requires |rest| > 0 && rest[0] == ' '
    ensures LeadingWord(a + rest) == a
    decreases |a|
  {
    if |a| == 0 {
      assert a + rest == rest;
    } else {
      assert (a + rest)[1..] == a[1..] + rest;
      LeadingWordPrefix(a[1..], rest);
    }
  }

  lemma {:induction false} WordsAfterSpaces(gap: string, s: string)
    requires forall i :: 0 <= i < |gap| ==> gap[i] == ' '
    ensures Words(gap + s) == Words(s)
    decreases |gap|
  {
    if |gap| > 0 {
      assert (gap + s)[1..] == gap[1..] + s;
      WordsAfterSpaces(gap[1..], s);
    } else {
      assert gap + s == s;
    }
  }
}
