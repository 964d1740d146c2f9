/** The bottom navigation bar: which tab is focused for the current path,
    where pressing a tab navigates, and the bar's bottom padding and height. */
module BottomNav {
  import opened Values

  /** `s.split(sep)`: the pieces between occurrences of `sep`, always at
      least one. */
  function Split(s: string, sep: char): (parts: seq<string>)
    ensures |parts| >= 1
    ensures forall i :: 0 <= i < |parts| ==> sep !in parts[i]
    ensures |parts| - 1 == multiset(s)[sep]
  {
    if s == [] then [""]
    else
      var rest := Split(s[1..], sep);
      assert s == [s[0]] + s[1..];
      if s[0] == sep then [""] + rest
      else [[s[0]] + rest[0]] + rest[1..]
  }

  /** `[x, ...rest].join(sep)` for a non-empty `rest`. */
  lemma JoinCons(x: string, rest: seq<string>, sep: string)
    requires |rest| >= 1
    ensures Join([x] + rest, sep) == x + sep + Join(rest, sep)
  {
    assert ([x] + rest)[1..] == rest;
  }

  /** Joining the pieces with the separator gives the string back, so the
      pieces are exactly the text between the separators. */
  lemma {:induction false} SplitJoins(s: string, sep: char)
    ensures Join(Split(s, sep), [sep]) == s
  {
    if s != [] {
      SplitJoins(s[1..], sep);
      if s[0] == sep {
        SplitJoinsAtSeparator(s, sep);
      } else {
        SplitJoinsAtOther(s, sep);
      }
    }
  }

  lemma SplitJoinsAtSeparator(s: string, sep: char)
    requires s != [] && s[0] == sep
    requires Join(Split(s[1..], sep), [sep]) == s[1..]
    ensures Join(Split(s, sep), [sep]) == s
  {
    var rest := Split(s[1..], sep);
    assert Split(s, sep) == [""] + rest;
    JoinCons("", rest, [sep]);
    assert s == [sep] + s[1..];
  }

  /** Putting a character in front of the first piece puts it in front of
      the joined string. */
  lemma JoinExtendsHead(c: char, pieces: seq<string>, sep: string)
    requires |pieces| >= 1
    ensures Join([[c] + pieces[0]] + pieces[1..], sep) == [c] + Join(pieces, sep)
  {
    if |pieces| > 1 {
      JoinCons(pieces[0], pieces[1..], sep);
      assert [pieces[0]] + pieces[1..] == pieces;
      JoinCons([c] + pieces[0], pieces[1..], sep);
    }
  }

  lemma SplitJoinsAtOther(s: string, sep: char)
    requires s != [] && s[0] != sep
    requires Join(Split(s[1..], sep), [sep]) == s[1..]
    ensures Join(Split(s, sep), [sep]) == s
  {
    var rest := Split(s[1..], sep);
    assert Split(s, sep) == [[s[0]] + rest[0]] + rest[1..];
    JoinExtendsHead(s[0], rest, [sep]);
    assert s == [s[0]] + s[1..];
  }

  /** A string with no separator splits into itself. */
  lemma {:induction false} SplitWithoutSeparator(s: string, sep: char)
    requires sep !in s
    ensures Split(s, sep) == [s]
  {
    if s != [] {
      assert sep !in s[1..] by {
        forall c | c in s[1..] ensures c != sep {
          assert c in s;
        }
      }
      SplitWithoutSeparator(s[1..], sep);
      assert [s[0]] + s[1..] == s;
    }
  }

  /** A separator at the front splits off an empty first piece. */
  lemma SplitLeadingSeparator(s: string, sep: char)
    ensures Split([sep] + s, sep) == [""] + Split(s, sep)
  {
    assert ([sep] + s)[1..] == s;
  }

  /** `pathname.split('/')[1] || 'home'` */
  function CurrentRoute(pathname: string): (route: string)
    ensures route != ""
    ensures '/' !in route
  {
    var parts := Split(pathname, '/');
    if |parts| > 1 && parts[1] != "" then parts[1] else "home"
  }

  /** The text after the first '/' and before the next one; None when the
      path has no '/'. */
  function SegmentAfterFirstSlash(pathname: string): (seg: Option<string>)
    ensures seg.Some? ==> '/' !in seg.value
  {
    if pathname == [] then None
    else if pathname[0] == '/' then Some(UpToSlash(pathname[1..]))
    else SegmentAfterFirstSlash(pathname[1..])
  }

  /** The longest prefix of `s` without '/'. */
  function UpToSlash(s: string): (p: string)
    ensures '/' !in p
    ensures |p| <= |s| && p == s[..|p|]
    ensures |p| < |s| ==> s[|p|] == '/'
  {
    if s == [] || s[0] == '/' then "" else [s[0]] + UpToSlash(s[1..])
  }

  /** The first piece of a split is the text before the first separator. */
  lemma {:induction false} SplitHead(s: string)
    ensures Split(s, '/')[0] == UpToSlash(s)
  {
    if s != [] {
      SplitHead(s[1..]);
    }
  }

  /** The second piece of a split is the segment after the first separator. */
  lemma {:induction false} SplitSecond(s: string)
    ensures var parts := Split(s, '/');
      (|parts| > 1) == SegmentAfterFirstSlash(s).Some?
      && (|parts| > 1 ==> parts[1] == SegmentAfterFirstSlash(s).value)
  {
    if s != [] {
      if s[0] == '/' {
        assert s == [s[0]] + s[1..];
        SplitHead(s[1..]);
      } else {
        SplitSecond(s[1..]);
      }
    }
  }

  /** The route is the segment after the first '/', or 'home' when that
      segment is empty or the path has no '/'. */
  lemma CurrentRouteIsFirstSegment(pathname: string)
    ensures var seg := SegmentAfterFirstSlash(pathname);
      CurrentRoute(pathname) == if seg.Some? && seg.value != "" then seg.value else "home"
  {
    SplitSecond(pathname);
  }

  datatype Tab = Tab(name: string, caption: string, icon: string)

  const Tabs: seq<Tab> := [
    Tab("home", "Home", "home"),
    Tab("sessions", "Sessions", "schedule"),
    Tab("exams", "Exams", "assignment"),
    Tab("profile", "Profile", "person")
  ]

  lemma TabsAreFourDistinct()
    ensures |Tabs| == 4
    ensures forall i, j :: 0 <= i < j < |Tabs| ==> Tabs[i].name != Tabs[j].name
    ensures forall i :: 0 <= i < |Tabs| ==> Tabs[i].name != "" && '/' !in Tabs[i].name
  {
  }

  /** `currentRoute === name`: the tab named by the path's first segment,
      or the home tab when that segment is empty or missing. */
  function Focused(tab: Tab, pathname: string): (f: bool)
    ensures var seg := SegmentAfterFirstSlash(pathname);
      f <==> tab.name == if seg.Some? && seg.value != "" then seg.value else "home"
  {
    CurrentRouteIsFirstSegment(pathname);
    tab.name == CurrentRoute(pathname)
  }

  /** No two tabs are focused at once. */
  lemma AtMostOneFocused(pathname: string, i: nat, j: nat)
    requires i < |Tabs| && j < |Tabs|
    requires Focused(Tabs[i], pathname) && Focused(Tabs[j], pathname)
    ensures i == j
  {
    TabsAreFourDistinct();
  }

  /** `onPressTab(name)`: the path passed to `router.replace`. */
  function PressTarget(name: string): (path: string)
    ensures |path| == |name| + 1 && path[0] == '/' && path[1..] == name
  {
    "/" + name
  }

  /** Round trip: the route of the path a tab press navigates to is the
      tab's own name, for every name a tab can have. */
  lemma PressedRouteIsName(name: string)
    requires name != "" && '/' !in name
    ensures CurrentRoute(PressTarget(name)) == name
  {
    assert PressTarget(name) == ['/'] + name;
    SplitLeadingSeparator(name, '/');
    SplitWithoutSeparator(name, '/');
  }

  /** Pressing a tab makes it the focused tab, and no other. */
  lemma PressedTabIsFocused(i: nat)
    requires i < |Tabs|
    ensures forall j :: 0 <= j < |Tabs| ==> (Focused(Tabs[j], PressTarget(Tabs[i].name)) <==> j == i)
  {
    TabsAreFourDistinct();
    PressedRouteIsName(Tabs[i].name);
  }

  /** `insets.bottom > 0 ? insets.bottom : 6` */
  function BottomPadding(insetBottom: real): (p: real)
    ensures p > 0.0
    ensures insetBottom > 0.0 ==> p == insetBottom
    ensures insetBottom <= 0.0 ==> p == 6.0
  {
    if insetBottom > 0.0 then insetBottom else 6.0
  }

  /** `72 + (insets.bottom > 0 ? insets.bottom : 0)` */
  function BarHeight(insetBottom: real): (h: real)
    ensures h >= 72.0
    ensures insetBottom > 0.0 ==> h == 72.0 + BottomPadding(insetBottom)
    ensures insetBottom <= 0.0 ==> h == 72.0
  {
    72.0 + (if insetBottom > 0.0 then insetBottom else 0.0)
  }
}
