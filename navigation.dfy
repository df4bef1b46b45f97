/** The navigation bar: the user's initials and switching between the
    development users. */
module Navigation {
  import opened Models
  import opened Seqs
  import opened AppState

  /** `s.split(' ')`: the segments between single spaces, empty ones
      included, so there is always at least one. */
  function SplitOnSpace(s: string): (segs: seq<string>)
    ensures |segs| >= 1
  {
    if |s| == 0 then [""]
    else
      var rest := SplitOnSpace(s[1..]);
      if s[0] == ' ' then [""] + rest else [[s[0]] + rest[0]] + rest[1..]
  }

  /** The segments joined back with single spaces. */
  function JoinWithSpace(segs: seq<string>): string
  {
    if |segs| == 0 then ""
    else if |segs| == 1 then segs[0]
    else segs[0] + " " + JoinWithSpace(segs[1..])
  }

  function Spaces(s: string): nat
  {
    if |s| == 0 then 0 else (if s[0] == ' ' then 1 else 0) + Spaces(s[1..])
  }

  /** Splitting loses nothing: joining the segments gives the name back. */
  lemma {:induction false} SplitJoinRoundTrip(s: string)
    ensures JoinWithSpace(SplitOnSpace(s)) == s
  {
    if |s| > 0 {
      var rest := SplitOnSpace(s[1..]);
      SplitJoinRoundTrip(s[1..]);
      if s[0] == ' ' {
        assert SplitOnSpace(s) == [""] + rest;
        assert (([""] + rest)[1..]) == rest;
        assert s == [' '] + s[1..];
      } else {
        var segs := [[s[0]] + rest[0]] + rest[1..];
        assert segs[1..] == rest[1..];
        if |rest| == 1 {
          assert s == [s[0]] + rest[0];
        } else {
          assert JoinWithSpace(rest) == rest[0] + " " + JoinWithSpace(rest[1..]);
          assert s == [s[0]] + s[1..];
        }
      }
    }
  }

  /** There is one segment more than there are spaces, and no segment
      holds a space. */
  lemma {:induction false} SplitShape(s: string)
    ensures |SplitOnSpace(s)| == Spaces(s) + 1
    ensures forall i :: 0 <= i < |SplitOnSpace(s)| ==> ' ' !in SplitOnSpace(s)[i]
  {
    if |s| > 0 {
      SplitShape(s[1..]);
      var rest := SplitOnSpace(s[1..]);
      if s[0] != ' ' {
        var segs := SplitOnSpace(s);
        assert segs[0] == [s[0]] + rest[0];
        forall i | 1 <= i < |segs|
          ensures ' ' !in segs[i]
        {
          assert segs[i] == rest[i];
        }
      }
    }
  }

  /** The first character of each non-empty segment: `n[0]` is undefined
      for an empty one, and `join` writes undefined as nothing. */
  function FirstChars(segs: seq<string>): (r: string)
    ensures |r| <= |segs|
    ensures forall c :: c in r ==> exists i :: 0 <= i < |segs| && |segs[i]| > 0 && segs[i][0] == c
  {
    if |segs| == 0 then ""
    else
      var head := if |segs[0]| == 0 then "" else [segs[0][0]];
      var tail := FirstChars(segs[1..]);
      assert forall c :: c in tail ==> exists i :: 1 <= i < |segs| && |segs[i]| > 0 && segs[i][0] == c by {
        forall c | c in tail
          ensures exists i :: 1 <= i < |segs| && |segs[i]| > 0 && segs[i][0] == c
        {
          var i :| 0 <= i < |segs[1..]| && |segs[1..][i]| > 0 && segs[1..][i][0] == c;
          assert segs[i + 1] == segs[1..][i];
        }
      }
      head + tail
  }

  /** `getUserInitials` */
  function Initials(name: string): string
  {
    FirstChars(SplitOnSpace(name))
  }

  /** At most one initial per space-separated segment, and none is a
      space. */
  lemma InitialsBounded(name: string)
    ensures |Initials(name)| <= Spaces(name) + 1
    ensures ' ' !in Initials(name)
  {
    SplitShape(name);
  }

  /** A name without spaces is one segment. */
  lemma {:induction false} SplitWithoutSpaces(name: string)
    requires ' ' !in name
    ensures SplitOnSpace(name) == [name]
  {
    if |name| > 0 {
      SplitWithoutSpaces(name[1..]);
      assert name == [name[0]] + name[1..];
    }
  }

  /** The empty name has no initials, and a name without spaces has its
      first character as its only initial. */
  lemma InitialsOfSingleWord(name: string)
    requires ' ' !in name
    ensures |name| == 0 ==> Initials(name) == ""
    ensures |name| > 0 ==> Initials(name) == [name[0]]
  {
    SplitWithoutSpaces(name);
    assert SplitOnSpace(name)[1..] == [];
  }

  /** Leading, trailing and doubled spaces contribute nothing. */
  lemma InitialsSkipEmptySegments(name: string)
    ensures Initials(" " + name) == Initials(name)
    ensures Initials(name + " ") == Initials(name)
  {
    assert (" " + name)[1..] == name;
    assert SplitOnSpace(" " + name) == [""] + SplitOnSpace(name);
    assert ([""] + SplitOnSpace(name))[1..] == SplitOnSpace(name);
    TrailingSpace(name);
  }

  lemma {:induction false} TrailingSpace(name: string)
    ensures SplitOnSpace(name + " ") == SplitOnSpace(name) + [""]
    ensures Initials(name + " ") == Initials(name)
  {
    if |name| == 0 {
      assert SplitOnSpace(" ") == [""] + SplitOnSpace("");
    } else {
      assert (name + " ")[1..] == name[1..] + " ";
      TrailingSpace(name[1..]);
      var rest := SplitOnSpace(name[1..]);
      if name[0] != ' ' {
        assert (rest + [""])[0] == rest[0];
        assert (rest + [""])[1..] == rest[1..] + [""];
      }
      FirstCharsAppendEmpty(SplitOnSpace(name));
    }
  }

  lemma {:induction false} FirstCharsAppendEmpty(segs: seq<string>)
    ensures FirstChars(segs + [""]) == FirstChars(segs)
  {
    if |segs| == 0 {
      assert FirstChars([""]) == "" + FirstChars([]);
    } else {
      assert (segs + [""])[1..] == segs[1..] + [""];
      FirstCharsAppendEmpty(segs[1..]);
    }
  }

  lemma {:induction false} FirstCharsAppend(a: seq<string>, b: seq<string>)
    ensures FirstChars(a + b) == FirstChars(a) + FirstChars(b)
  {
    if |a| > 0 {
      assert (a + b)[1..] == a[1..] + b;
      FirstCharsAppend(a[1..], b);
    } else {
      assert a + b == b;
    }
  }

  /** Splitting at a space splits the segments there. */
  /** One unfolding of the split, on a string given by its first character. */
  lemma SplitCons(c: char, t: string)
    ensures SplitOnSpace([c] + t) ==
      if c == ' ' then [""] + SplitOnSpace(t) else [[c] + SplitOnSpace(t)[0]] + SplitOnSpace(t)[1..]
  {
    assert ([c] + t)[1..] == t;
  }

  /** The inductive step of `SplitAtSpace`, for a part starting with `c`. */
  /** Extending the first segment commutes with appending segments. */
  lemma ExtendFirstSegment(c: char, left: seq<string>, right: seq<string>)
    requires |left| >= 1
    ensures [[c] + (left + right)[0]] + (left + right)[1..] == ([[c] + left[0]] + left[1..]) + right
  {
    assert (left + right)[0] == left[0];
    assert (left + right)[1..] == left[1..] + right;
  }

  lemma SplitAtSpaceStep(c: char, a: string, b: string)
    requires SplitOnSpace(a + " " + b) == SplitOnSpace(a) + SplitOnSpace(b)
    ensures SplitOnSpace([c] + (a + " " + b)) == SplitOnSpace([c] + a) + SplitOnSpace(b)
  {
    SplitCons(c, a + " " + b);
    SplitCons(c, a);
    if c != ' ' {
      ExtendFirstSegment(c, SplitOnSpace(a), SplitOnSpace(b));
    } else {
      assert [""] + (SplitOnSpace(a) + SplitOnSpace(b)) == ([""] + SplitOnSpace(a)) + SplitOnSpace(b);
    }
  }

  lemma {:induction false} SplitAtSpace(a: string, b: string)
    ensures SplitOnSpace(a + " " + b) == SplitOnSpace(a) + SplitOnSpace(b)
  {
    if |a| == 0 {
      assert a + " " + b == [' '] + b;
      SplitCons(' ', b);
    } else {
      SplitAtSpace(a[1..], b);
      SplitAtSpaceStep(a[0], a[1..], b);
      assert [a[0]] + a[1..] == a;
      assert [a[0]] + (a[1..] + " " + b) == a + " " + b;
    }
  }

  /** The initials of two parts joined by a space are the initials of each:
      a doubled space adds an empty segment, which contributes nothing. */
  lemma InitialsAtSpace(a: string, b: string)
    ensures Initials(a + " " + b) == Initials(a) + Initials(b)
  {
    SplitAtSpace(a, b);
    FirstCharsAppend(SplitOnSpace(a), SplitOnSpace(b));
  }

  /** The mock user whose id is `selected`, if any. */
  function UserFor(selected: string): (r: Option<User>)
    ensures r.Some? <==> selected in {"u1", "u2", "u3"}
    ensures r.Some? ==> r.value in MockUsers && r.value.id == selected
  {
    Find(MockUsers, (u: User) => u.id == selected)
  }

  /** Switching users: only an id of a mock user changes the current user. */
  method OnUserChange(store: Store, selected: string)
    modifies store
    ensures store.currentUser == (if UserFor(selected).Some? then UserFor(selected).value else old(store.currentUser))
    ensures store.dataSources == old(store.dataSources) && store.reports == old(store.reports)
  {
    var user := Find(MockUsers, (u: User) => u.id == selected);
    if user.Some? {
      store.SetCurrentUser(user.value);
    }
  }
}
