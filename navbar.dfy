/** The navigation bar's avatar text: the upper-cased first letters of the
    first two space-separated words of the user's name, or "U" without a name. */
module Navbar {
  import opened Common

  /** `s.split(' ')`: the pieces between single spaces, empty pieces
      included; the empty string splits into one empty piece. */
  function Split(s: string): (parts: seq<string>)
    ensures |parts| >= 1
    ensures forall i :: 0 <= i < |parts| ==> ' ' !in parts[i]
  {
    if s == [] then [""]
    else if s[0] == ' ' then [""] + Split(s[1..])
    else
      var rest := Split(s[1..]);
      [[s[0]] + rest[0]] + rest[1..]
  }

  /** `parts.join(sep)` for a non-empty list. */
  function Join(parts: seq<string>, sep: string): string
    requires |parts| >= 1
  {
    if |parts| == 1 then parts[0] else parts[0] + sep + Join(parts[1..], sep)
  }

  /** Joining the pieces with a space gives back the split string. */
  lemma {:induction false} JoinSplit(s: string)
    ensures Join(Split(s), " ") == s
  {
    if s == [] {
    } else if s[0] == ' ' {
      JoinSplit(s[1..]);
      assert s == " " + s[1..];
    } else {
      var rest := Split(s[1..]);
      JoinSplit(s[1..]);
      if |rest| == 1 {
        assert s == [s[0]] + rest[0];
      } else {
        assert Join(rest, " ") == rest[0] + " " + Join(rest[1..], " ");
        assert s == [s[0]] + s[1..];
      }
    }
  }

  /** `.map(part => part[0]).join('')`: the first character of each piece;
      an empty piece gives `undefined`, which joins as nothing. */
  function FirstChars(parts: seq<string>): (r: string)
    ensures |r| <= |parts|
    ensures (forall i :: 0 <= i < |parts| ==> parts[i] != []) ==>
      |r| == |parts| && forall i :: 0 <= i < |parts| ==> r[i] == parts[i][0]
  {
    if parts == [] then []
    else (if parts[0] == [] then [] else [parts[0][0]]) + FirstChars(parts[1..])
  }

  /** Reference definition of the initials, on the characters of `s`: every
      non-space character that begins `s` or follows a space
      (`afterSpace` says whether the character before `s` was one). */
  function Starts(s: string, afterSpace: bool): (r: string)
    ensures |r| <= |s| && ' ' !in r
  {
    if s == [] then []
    else if s[0] == ' ' then Starts(s[1..], true)
    else (if afterSpace then [s[0]] else []) + Starts(s[1..], false)
  }

  function WordStarts(s: string): string
  {
    Starts(s, true)
  }

  /** The pieces' first characters are exactly the word starts of the string. */
  lemma {:induction false} FirstCharsOfSplit(s: string)
    ensures FirstChars(Split(s)) == Starts(s, true)
    ensures FirstChars(Split(s)[1..]) == Starts(s, false)
  {
    if s == [] {
    } else if s[0] == ' ' {
      FirstCharsOfSplit(s[1..]);
      assert Split(s)[1..] == Split(s[1..]);
    } else {
      FirstCharsOfSplit(s[1..]);
      var rest := Split(s[1..]);
      assert Split(s)[1..] == rest[1..];
    }
  }

  /** `toUpperCase` on the ASCII letters. */
  function UpperChar(c: char): (u: char)
    ensures 'a' <= c <= 'z' ==> u as int == c as int - 32
    ensures !('a' <= c <= 'z') ==> u == c
  {
    if 'a' <= c <= 'z' then (c as int - 32) as char else c
  }

  function ToUpper(s: string): (u: string)
    ensures |u| == |s|
    ensures forall i :: 0 <= i < |s| ==> u[i] == UpperChar(s[i])
  {
    if s == [] then [] else [UpperChar(s[0])] + ToUpper(s[1..])
  }

  /** `getInitials`: at most two characters, the first two word starts upper-cased. */
  function GetInitials(name: string): (r: string)
    ensures |r| <= 2
    ensures r == Take(ToUpper(WordStarts(name)), 2)
  {
    FirstCharsOfSplit(name);
    Take(ToUpper(FirstChars(Split(name))), 2)
  }

  /** `user?.name ? getInitials(user.name) : 'U'`. */
  function AvatarText(name: Option<string>): (r: string)
    ensures !Truthy(name) ==> r == "U"
    ensures Truthy(name) ==> r == Take(ToUpper(WordStarts(name.value)), 2)
  {
    if Truthy(name) then GetInitials(name.value) else "U"
  }

  /** A word without spaces has exactly one start, its first character. */
  lemma {:induction false} OneWordStarts(w: string, afterSpace: bool)
    requires ' ' !in w
    ensures Starts(w, afterSpace) == if afterSpace && w != [] then [w[0]] else []
  {
    if w != [] {
      assert ' ' !in w[1..] by {
        forall i | 0 <= i < |w[1..]| ensures w[1..][i] != ' ' {
          assert w[1..][i] == w[i + 1];
        }
      }
      OneWordStarts(w[1..], false);
    }
  }

  /** A space ends the word starts of what precedes it and begins those of what follows. */
  lemma {:induction false} StartsAcrossSpace(s: string, t: string, afterSpace: bool)
    ensures Starts(s + " " + t, afterSpace) == Starts(s, afterSpace) + Starts(t, true)
  {
    if s == [] {
      assert s + " " + t == [' '] + t;
      assert (s + " " + t)[1..] == t;
    } else {
      StartsAcrossSpace(s[1..], t, s[0] == ' ');
      assert (s + " " + t)[1..] == s[1..] + " " + t;
    }
  }

  /** Trailing spaces add no initial. */
  lemma {:induction false} TrailingSpaceAddsNothing(s: string, afterSpace: bool)
    ensures Starts(s + " ", afterSpace) == Starts(s, afterSpace)
  {
    StartsAcrossSpace(s, "", afterSpace);
    assert s + " " + "" == s + " ";
  }

  /** A one-word name shows its first letter, upper-cased. */
  lemma SingleWordInitial(name: string)
    requires name != [] && ' ' !in name
    ensures GetInitials(name) == [UpperChar(name[0])]
  {
    OneWordStarts(name, true);
  }

  /** "first last" shows the upper-cased first letters of both words. */
  lemma TwoWordInitials(first: string, last: string)
    requires first != [] && ' ' !in first
    requires last != [] && ' ' !in last
    ensures GetInitials(first + " " + last) == [UpperChar(first[0]), UpperChar(last[0])]
  {
    StartsAcrossSpace(first, last, true);
    OneWordStarts(first, true);
    OneWordStarts(last, true);
  }

  /** A third and later word never shows. */
  lemma ThirdWordIgnored(first: string, last: string, more: string)
    requires first != [] && ' ' !in first
    requires last != [] && ' ' !in last
    ensures GetInitials(first + " " + last + " " + more) == GetInitials(first + " " + last)
  {
    StartsAcrossSpace(first + " " + last, more, true);
    TwoWordInitials(first, last);
  }

  /** Extra spaces before, between or after the words change nothing. */
  lemma SpacesIgnored(s: string, t: string)
    ensures GetInitials(" " + s) == GetInitials(s)
    ensures GetInitials(s + " ") == GetInitials(s)
    ensures GetInitials(s + "  " + t) == GetInitials(s + " " + t)
  {
    assert (" " + s)[1..] == s;
    TrailingSpaceAddsNothing(s, true);
    StartsAcrossSpace(s, " " + t, true);
    StartsAcrossSpace(s, t, true);
    assert s + " " + (" " + t) == s + "  " + t;
  }

  /** A name made only of spaces is truthy but has no word start, so the
      avatar shows nothing rather than the "U" fallback. */
  lemma BlankNameShowsNothing(n: nat)
    requires n >= 1
    ensures AvatarText(Some(seq(n, _ => ' '))) == ""
  {
    var s := seq(n, _ => ' ');
    SpacesHaveNoStarts(s, true);
  }

  lemma {:induction false} SpacesHaveNoStarts(s: string, afterSpace: bool)
    requires forall i :: 0 <= i < |s| ==> s[i] == ' '
    ensures Starts(s, afterSpace) == []
  {
    if s != [] {
      SpacesHaveNoStarts(s[1..], true);
    }
  }
}
