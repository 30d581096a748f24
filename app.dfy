/** The application shell: the `isLoggedIn` flag and the route table. Every
    named route renders its screen whatever the flag says; the flag only
    chooses where an unmatched path is sent. */
module Routing {
  import opened Session
  import Spaces

  const DashboardPath := "/dashboard"
  const LoginPath := "/login"

  /** What the router renders for a path. */
  datatype Screen =
    | LoginScreen
    | RegisterScreen
    | DashboardScreen
    | MyReservationsScreen
    | ReserveScreen(id: string, name: string)
    | AvailabilityScreen(spaceId: string)
    | CreateAdminScreen
    | Redirect(to: string)

  /** The text of `s` before the first `c`, or all of `s` when it has none. */
  function Before(s: string, c: char): (r: string)
    ensures r <= s && c !in r
    ensures |r| < |s| ==> s[|r|] == c
    ensures c !in s ==> r == s
  {
    if s == [] then []
    else if s[0] == c then []
    else [s[0]] + Before(s[1..], c)
  }

  /** A string is cut at its first `c`. */
  lemma {:induction false} BeforeFirst(a: string, c: char, b: string)
    requires c !in a
    ensures Before(a + [c] + b, c) == a
  {
    if a != [] {
      var s := a + [c] + b;
      assert s[0] == a[0] && s[1..] == a[1..] + [c] + b;
      assert c !in a[1..] by {
        forall i | 0 <= i < |a[1..]| ensures a[1..][i] != c {
          assert a[1..][i] == a[i + 1];
        }
      }
      BeforeFirst(a[1..], c, b);
      assert [a[0]] + a[1..] == a;
    }
  }

  /** The pathname the router matches when `navigate` is given `target`: the
      text before any `#` (the hash), and of that the text before any `?`
      (the query). The browser's URL parser may rewrite the path further;
      the lemmas below require targets it leaves as they are
      (`BrowserKeeps`, `BrowserKeepsPath`, `EndsVisibly`). */
  function PathnameOf(target: string): (r: string)
    ensures r <= target && '#' !in r && '?' !in r
    ensures '#' !in target && '?' !in target ==> r == target
  {
    Before(Before(target, '#'), '?')
  }

  /** A path segment that the browser's URL parser passes to the router as it
      stands. The parser resolves the dot segments `.` and `..` (also spelled
      with `%2e`), reads `\` as `/` and deletes tabs and line breaks; the
      router percent-decodes what it matches. A segment that is not a dot
      segment and holds none of `\`, tab, LF, CR or `%` is untouched by all
      of these. */
  predicate BrowserKeeps(seg: string)
  {
    seg != "." && seg != ".." && '\\' !in seg && '\t' !in seg && '\n' !in seg && '\r' !in seg && '%' !in seg
  }

  /** Every segment of `path` is one the browser keeps. */
  predicate BrowserKeepsPath(path: string)
  {
    forall seg :: seg in Split(path) ==> BrowserKeeps(seg)
  }

  /** The URL parser also strips spaces and control characters from the end
      of the whole URL; a link that ends in `s` keeps its last character when
      this holds. */
  predicate EndsVisibly(s: string)
  {
    s != [] && s[|s| - 1] > ' '
  }

  /** The pieces of `s` between slashes; `"/a/b"` gives `["", "a", "b"]`. */
  function Split(s: string): (r: seq<string>)
    ensures |r| >= 1
    ensures forall i :: 0 <= i < |r| ==> '/' !in r[i]
  {
    if s == [] then [""]
    else if s[0] == '/' then [""] + Split(s[1..])
    else
      var rest := Split(s[1..]);
      [[s[0]] + rest[0]] + rest[1..]
  }

  /** A piece without slashes is one segment … */
  lemma {:induction false} SplitPlain(a: string)
    requires '/' !in a
    ensures Split(a) == [a]
  {
    if a != [] {
      assert '/' !in a[1..] by {
        forall i | 0 <= i < |a[1..]| ensures a[1..][i] != '/' {
          assert a[1..][i] == a[i + 1];
        }
      }
      SplitPlain(a[1..]);
      assert [a[0]] + a[1..] == a;
    }
  }

  /** … and a slash after it starts the next one. */
  lemma {:induction false} SplitAt(a: string, b: string)
    requires '/' !in a
    ensures Split(a + "/" + b) == [a] + Split(b)
  {
    if a == [] {
      assert a + "/" + b == "/" + b;
      assert ("/" + b)[1..] == b;
    } else {
      var s := a + "/" + b;
      assert s[0] == a[0];
      assert s[1..] == a[1..] + "/" + b;
      assert '/' !in a[1..] by {
        forall i | 0 <= i < |a[1..]| ensures a[1..][i] != '/' {
          assert a[1..][i] == a[i + 1];
        }
      }
      SplitAt(a[1..], b);
      assert [a[0]] + a[1..] == a;
    }
  }

  /** The path with its trailing slashes removed; the router accepts any
      number of them after a route. */
  function TrimSlashes(s: string): (r: string)
    ensures r <= s
    ensures r == [] || r[|r| - 1] != '/'
    ensures forall i :: |r| <= i < |s| ==> s[i] == '/'
  {
    if s != [] && s[|s| - 1] == '/' then TrimSlashes(s[..|s| - 1]) else s
  }

  function Segments(path: string): seq<string>
  {
    Split(TrimSlashes(path))
  }

  /** Where the wildcard route sends a path that no other route matches. */
  function Fallback(loggedIn: bool): (r: string)
    ensures r == DashboardPath <==> loggedIn
    ensures r == LoginPath <==> !loggedIn
  {
    if loggedIn then DashboardPath else LoginPath
  }

  /** The `<Routes>` table: the most specific route wins, and `*` catches
      the rest. A parameter is one non-empty segment. */
  function Route(path: string, loggedIn: bool): (r: Screen)
    ensures r.Redirect? ==> r.to == Fallback(loggedIn)
    ensures r.ReserveScreen? ==> r.id != "" && r.name != "" && '/' !in r.id && '/' !in r.name
    ensures r.AvailabilityScreen? ==> r.spaceId != "" && '/' !in r.spaceId
  {
    var p := Segments(path);
    if p == ["", "login"] then LoginScreen
    else if p == ["", "register"] then RegisterScreen
    else if p == ["", "dashboard"] then DashboardScreen
    else if p == ["", "myreservations"] then MyReservationsScreen
    else if |p| == 4 && p[0] == "" && p[1] == "reserve" && p[2] != "" && p[3] != "" then
      ReserveScreen(p[2], p[3])
    else if |p| == 3 && p[0] == "" && p[1] == "availability" && p[2] != "" then
      AvailabilityScreen(p[2])
    else if p == ["", "create-admin"] then CreateAdminScreen
    else Redirect(Fallback(loggedIn))
  }

  /** The login state decides only the fallback: a named route renders the
      same screen, logged in or not. */
  lemma RouteIgnoresLogin(path: string)
    ensures Route(path, true).Redirect? <==> Route(path, false).Redirect?
    ensures !Route(path, true).Redirect? ==> Route(path, true) == Route(path, false)
  {
  }

  /** A one-segment absolute path with no trailing slash splits into the
      empty root piece and that segment. */
  lemma {:induction false} SegmentsOfTop(name: string)
    requires name != "" && '/' !in name
    ensures Segments("/" + name) == ["", name]
  {
    var path := "/" + name;
    assert path == "" + "/" + name;
    assert path[|path| - 1] == name[|name| - 1];
    SplitPlain(name);
    SplitAt("", name);
  }

  /** The two fallback targets are themselves routes, so a redirect never
      redirects again. */
  lemma FallbackIsRouted(loggedIn: bool, again: bool)
    ensures Route(Fallback(loggedIn), again) == (if loggedIn then DashboardScreen else LoginScreen)
  {
    if loggedIn {
      assert DashboardPath == "/" + "dashboard";
      SegmentsOfTop("dashboard");
    } else {
      assert LoginPath == "/" + "login";
      SegmentsOfTop("login");
    }
  }

  /** A path that ends in a segment has no trailing slash to trim. */
  lemma {:induction false} EndsInSegment(s: string, last: string)
    requires last != "" && '/' !in last
    ensures TrimSlashes(s + last) == s + last
  {
    assert (s + last)[|s + last| - 1] == last[|last| - 1];
  }

  /** An absolute path of three slash-free pieces. */
  lemma {:induction false} SplitThree(a: string, b: string, c: string)
    requires '/' !in a && '/' !in b && '/' !in c
    ensures Split("/" + a + "/" + b + "/" + c) == ["", a, b, c]
  {
    assert "/" + a + "/" + b + "/" + c == "" + "/" + (a + "/" + (b + "/" + c));
    SplitPlain(c);
    SplitAt(b, c);
    SplitAt(a, b + "/" + c);
    SplitAt("", a + "/" + (b + "/" + c));
  }

  /** An absolute path of four slash-free pieces. */
  lemma {:induction false} SplitFour(a: string, b: string, c: string, d: string)
    requires '/' !in a && '/' !in b && '/' !in c && '/' !in d
    ensures Split("/" + a + "/" + b + "/" + c + "/" + d) == ["", a, b, c, d]
  {
    assert "/" + a + "/" + b + "/" + c + "/" + d == "" + "/" + (a + "/" + (b + "/" + (c + "/" + d)));
    SplitPlain(d);
    SplitAt(c, d);
    SplitAt(b, c + "/" + d);
    SplitAt(a, b + "/" + (c + "/" + d));
    SplitAt("", a + "/" + (b + "/" + (c + "/" + d)));
  }

  /** The segments of a reserve link. */
  lemma {:induction false} ReserveSegments(id: string, name: string)
    requires id != "" && name != ""
    requires '/' !in id && '/' !in name
    ensures Segments("/reserve/" + id + "/" + name) == ["", "reserve", id, name]
  {
    var path := "/reserve/" + id + "/" + name;
    assert path == ("/reserve/" + id + "/") + name;
    EndsInSegment("/reserve/" + id + "/", name);
    assert path == "/" + "reserve" + "/" + id + "/" + name;
    SplitThree("reserve", id, name);
  }

  /** A card's reserve link reaches the reservation screen with the id and
      the name it was built from, when both are non-empty, free of the
      characters that end a path segment (`/`) or the pathname (`?`, `#`),
      and left as they are by the browser's URL parser. */
  lemma ReservePathRoutes(space: Spaces.Space, loggedIn: bool)
    requires space.id != "" && space.name != ""
    requires '/' !in space.id && '/' !in space.name
    requires '#' !in space.id && '?' !in space.id && '#' !in space.name && '?' !in space.name
    requires BrowserKeeps(space.id) && BrowserKeeps(space.name) && EndsVisibly(space.name)
    ensures Route(PathnameOf(Spaces.ReservePath(space)), loggedIn) == ReserveScreen(space.id, space.name)
  {
    var path := Spaces.ReservePath(space);
    assert '#' !in path && '?' !in path by {
      assert path == "/reserve/" + space.id + "/" + space.name;
      forall i | 0 <= i < |path| ensures path[i] != '#' && path[i] != '?' {
        if i < 9 {
        } else if i < 9 + |space.id| {
          assert path[i] == space.id[i - 9];
        } else if i > 9 + |space.id| {
          assert path[i] == space.name[i - 10 - |space.id|];
        }
      }
    }
    ReserveSegments(space.id, space.name);
  }

  /** A reserve link whose name holds one slash has five segments. */
  lemma {:induction false} TwoPartNameSegments(id: string, a: string, b: string)
    requires id != "" && a != "" && b != ""
    requires '/' !in id && '/' !in a && '/' !in b
    ensures Segments("/reserve/" + id + "/" + (a + "/" + b)) == ["", "reserve", id, a, b]
  {
    var path := "/reserve/" + id + "/" + (a + "/" + b);
    assert path == ("/reserve/" + id + "/" + a + "/") + b;
    EndsInSegment("/reserve/" + id + "/" + a + "/", b);
    assert path == "/" + "reserve" + "/" + id + "/" + a + "/" + b;
    SplitFour("reserve", id, a, b);
  }

  /** Such a link, with nothing that ends the pathname, reaches only the
      wildcard. */
  lemma {:induction false} SlashedNameRedirects(id: string, a: string, b: string, loggedIn: bool)
    requires id != "" && a != "" && b != ""
    requires '/' !in id && '/' !in a && '/' !in b
    requires '#' !in id && '?' !in id && '#' !in a && '?' !in a && '#' !in b && '?' !in b
    requires BrowserKeeps(id) && BrowserKeeps(a) && BrowserKeeps(b) && EndsVisibly(b)
    ensures Route(PathnameOf("/reserve/" + id + "/" + (a + "/" + b)), loggedIn) == Redirect(Fallback(loggedIn))
  {
    var path := "/reserve/" + id + "/" + (a + "/" + b);
    assert '#' !in "/reserve/" && '?' !in "/reserve/";
    assert '#' !in path && '?' !in path;
    assert PathnameOf(path) == path;
    TwoPartNameSegments(id, a, b);
    assert |Segments(path)| == 5;
  }

  /** The name goes into the link unencoded: one containing a slash makes the
      link a five-segment path, which only the wildcard matches. */
  lemma SlashedNameMisroutes(loggedIn: bool)
    ensures Route(PathnameOf(Spaces.ReservePath(Spaces.Space("7", "A/B", "aula", Spaces.Number(30), "Edificio 1", map[]))), loggedIn)
            == Redirect(Fallback(loggedIn))
  {
    var path := Spaces.ReservePath(Spaces.Space("7", "A/B", "aula", Spaces.Number(30), "Edificio 1", map[]));
    assert path == "/reserve/" + "7" + "/" + ("A" + "/" + "B");
    SlashedNameRedirects("7", "A", "B", loggedIn);
  }

  /** A target with a `#` and no earlier `?` has as pathname what precedes
      the `#`. */
  lemma {:induction false} HashEndsPathname(head: string, rest: string)
    requires '#' !in head && '?' !in head
    requires BrowserKeepsPath(head)
    ensures PathnameOf(head + ['#'] + rest) == head
  {
    BeforeFirst(head, '#', rest);
  }

  /** The browser keeps every segment of a reserve link built from pieces it
      keeps. */
  lemma {:induction false} ReserveHeadKept(id: string, name: string)
    requires '/' !in id && '/' !in name
    requires BrowserKeeps(id) && BrowserKeeps(name)
    ensures BrowserKeepsPath("/reserve/" + id + "/" + name)
  {
    assert "/reserve/" + id + "/" + name == "/" + "reserve" + "/" + id + "/" + name;
    SplitThree("reserve", id, name);
    assert BrowserKeeps("") && BrowserKeeps("reserve");
  }

  /** A `#` in the name starts the link's hash: the reservation screen gets
      only the part of the name before it. */
  lemma {:induction false} HashCutsName(id: string, name: string, rest: string)
    requires id != "" && name != ""
    requires '/' !in id && '/' !in name
    requires '#' !in id && '?' !in id && '#' !in name && '?' !in name
    requires BrowserKeeps(id) && BrowserKeeps(name)
    ensures Route(PathnameOf("/reserve/" + id + "/" + name + ['#'] + rest), false) == ReserveScreen(id, name)
  {
    var head := "/reserve/" + id + "/" + name;
    assert '#' !in "/reserve/" && '?' !in "/reserve/";
    ReserveHeadKept(id, name);
    HashEndsPathname(head, rest);
    ReserveSegments(id, name);
  }

  /** So "Sala #3" reaches the reservation screen as "Sala ". */
  lemma HashInNameTruncates()
    ensures Route(PathnameOf(Spaces.ReservePath(Spaces.Space("7", "Sala #3", "sala", Spaces.Number(12), "Edificio 2", map[]))), false)
            == ReserveScreen("7", "Sala ")
  {
    var path := Spaces.ReservePath(Spaces.Space("7", "Sala #3", "sala", Spaces.Number(12), "Edificio 2", map[]));
    assert path == "/reserve/" + "7" + "/" + "Sala " + ['#'] + "3";
    HashCutsName("7", "Sala ", "3");
  }

  /** The segments of an availability link. */
  lemma {:induction false} AvailabilitySegments(id: string)
    requires id != "" && '/' !in id
    ensures Segments("/availability/" + id) == ["", "availability", id]
  {
    var path := "/availability/" + id;
    EndsInSegment("/availability/", id);
    assert path == "" + "/" + ("availability" + "/" + id);
    SplitPlain(id);
    SplitAt("availability", id);
    SplitAt("", "availability" + "/" + id);
  }

  /** A card's availability link reaches the availability screen for its
      id, when the id is non-empty and free of `/`, `?` and `#`. */
  lemma AvailabilityPathRoutes(space: Spaces.Space, loggedIn: bool)
    requires space.id != "" && '/' !in space.id && '#' !in space.id && '?' !in space.id
    requires BrowserKeeps(space.id) && EndsVisibly(space.id)
    ensures Route(PathnameOf(Spaces.AvailabilityPath(space)), loggedIn) == AvailabilityScreen(space.id)
  {
    var path := Spaces.AvailabilityPath(space);
    assert '#' !in path && '?' !in path by {
      assert path == "/availability/" + space.id;
      forall i | 0 <= i < |path| ensures path[i] != '#' && path[i] != '?' {
        if i >= 14 {
          assert path[i] == space.id[i - 14];
        }
      }
    }
    AvailabilitySegments(space.id);
  }

  /** The shell's state. */
  class App {
    var isLoggedIn: bool

    /** The flag starts as "a token is stored". */
    constructor (store: LocalStorage)
      ensures isLoggedIn == LoggedIn(store.items)
    {
      isLoggedIn := store.GetItem(AuthToken).Some?;
    }

    /** The `storage` listener, fired when another tab changes storage. */
    method OnStorage(store: LocalStorage)
      modifies this
      ensures isLoggedIn == LoggedIn(store.items)
    {
      isLoggedIn := store.GetItem(AuthToken).Some?;
    }

    /** The `onLogin` callback handed to the login screen: sets the flag
        without looking at storage. */
    method OnLogin()
      modifies this
      ensures isLoggedIn
    {
      isLoggedIn := true;
    }

    function Render(path: string): Screen
      reads this
    {
      Route(path, isLoggedIn)
    }
  }
}
