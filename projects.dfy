// The projects section: a constant list of projects split into featured
// and other projects, and the two-digit badge shown on each featured card.
module Projects {

  datatype Project = Project(
    id: nat,
    title: string,
    desc: string,
    tags: seq<string>,
    github: string,
    live: string,
    featured: bool
  )

  const AllProjects: seq<Project> := [
    Project(1, "Project One",
      "A full-featured web application built with React and TypeScript. Features include authentication, real-time updates, and a clean dashboard UI.",
      ["React", "TypeScript", "Tailwind CSS"],
      "https://github.com/yourusername/project-one", "https://project-one.vercel.app", true),
    Project(2, "Project Two",
      "A responsive e-commerce platform with product filtering, cart functionality, and seamless checkout experience.",
      ["React", "Redux", "Node.js"],
      "https://github.com/yourusername/project-two", "https://project-two.vercel.app", true),
    Project(3, "Project Three",
      "A weather dashboard app that fetches real-time data from an API and displays beautiful data visualizations.",
      ["React", "REST API", "Chart.js"],
      "https://github.com/yourusername/project-three", "https://project-three.vercel.app", false),
    Project(4, "Project Four",
      "A task management app with drag-and-drop functionality, local storage persistence, and priority tagging.",
      ["React", "Tailwind CSS", "DnD"],
      "https://github.com/yourusername/project-four", "https://project-four.vercel.app", false),
    Project(5, "Project Five",
      "A personal blog platform with markdown support, dark mode, and a clean reading experience.",
      ["Next.js", "MDX", "Tailwind CSS"],
      "https://github.com/yourusername/project-five", "https://project-five.vercel.app", false),
    Project(6, "Ominifood",
      "A portfolio template built for developers with smooth animations and a fully responsive layout.",
      ["HTML", "CSS", "Media Queries"],
      "https://github.com/yustech-alt/Omnifood", "https://omnifood-yusufsite.netlify.app/", false)
  ]

  // ---------------------------------------------------------------------
  // The two lists

  /** `ps.filter(p => p.featured == wanted)`. */
  function FilterByFeatured(ps: seq<Project>, wanted: bool): (r: seq<Project>)
    ensures |r| <= |ps|
    ensures forall p :: p in r ==> p in ps && p.featured == wanted
    ensures forall p :: p in ps && p.featured == wanted ==> p in r
  {
    if ps == [] then []
    else if ps[0].featured == wanted then [ps[0]] + FilterByFeatured(ps[1..], wanted)
    else FilterByFeatured(ps[1..], wanted)
  }

  function Featured(ps: seq<Project>): seq<Project> {
    FilterByFeatured(ps, true)
  }

  function Others(ps: seq<Project>): seq<Project> {
    FilterByFeatured(ps, false)
  }

  /** xs is ys with some elements left out, in the same order. */
  predicate IsSubsequence(xs: seq<Project>, ys: seq<Project>)
    decreases |ys|
  {
    xs == [] ||
    (ys != [] && ((xs[0] == ys[0] && IsSubsequence(xs[1..], ys[1..])) || IsSubsequence(xs, ys[1..])))
  }

  /** Each list keeps the relative order of the project array. */
  lemma {:induction false} FilterPreservesOrder(ps: seq<Project>, wanted: bool)
    ensures IsSubsequence(FilterByFeatured(ps, wanted), ps)
    decreases |ps|
  {
    if ps != [] {
      FilterPreservesOrder(ps[1..], wanted);
      if ps[0].featured == wanted {
        assert FilterByFeatured(ps, wanted)[1..] == FilterByFeatured(ps[1..], wanted);
      }
    }
  }

  /** Featured and other projects together are exactly the project array,
      each project in exactly one of them. */
  lemma {:induction false} Partition(ps: seq<Project>)
    ensures multiset(Featured(ps)) + multiset(Others(ps)) == multiset(ps)
    ensures |Featured(ps)| + |Others(ps)| == |ps|
    ensures forall p :: p in ps ==> (p in Featured(ps) <==> p !in Others(ps))
    decreases |ps|
  {
    if ps != [] {
      Partition(ps[1..]);
      assert ps == [ps[0]] + ps[1..];
    }
  }

  // ---------------------------------------------------------------------
  // Keys

  predicate DistinctIds(ps: seq<Project>) {
    forall i, j :: 0 <= i < j < |ps| ==> ps[i].id != ps[j].id
  }

  lemma AllProjectsHaveDistinctIds()
    ensures DistinctIds(AllProjects)
  {
  }

  /** Filtering keeps ids distinct, so the keys of both grids are unique. */
  lemma {:induction false} FilterKeepsDistinctIds(ps: seq<Project>, wanted: bool)
    requires DistinctIds(ps)
    ensures DistinctIds(FilterByFeatured(ps, wanted))
    decreases |ps|
  {
    if ps != [] {
      assert DistinctIds(ps[1..]) by {
        forall i, j | 0 <= i < j < |ps[1..]| ensures ps[1..][i].id != ps[1..][j].id {
          assert ps[1..][i] == ps[i + 1] && ps[1..][j] == ps[j + 1];
        }
      }
      FilterKeepsDistinctIds(ps[1..], wanted);
      var rest := FilterByFeatured(ps[1..], wanted);
      if ps[0].featured == wanted {
        forall q | q in rest ensures q.id != ps[0].id {
          var k :| 0 <= k < |ps[1..]| && ps[1..][k] == q;
          assert ps[k + 1] == q;
        }
        var r := FilterByFeatured(ps, wanted);
        forall i, j | 0 <= i < j < |r| ensures r[i].id != r[j].id {
          assert r[j] == rest[j - 1];
          if i > 0 {
            assert r[i] == rest[i - 1];
          } else {
            assert rest[j - 1] in rest;
          }
        }
      }
    }
  }

  lemma {:induction false} FilterUniform(ps: seq<Project>, wanted: bool)
    requires forall i :: 0 <= i < |ps| ==> ps[i].featured == wanted
    ensures FilterByFeatured(ps, wanted) == ps
    ensures FilterByFeatured(ps, !wanted) == []
    decreases |ps|
  {
    if ps != [] {
      FilterUniform(ps[1..], wanted);
      assert ps == [ps[0]] + ps[1..];
    }
  }

  /** A list whose first two projects are featured and the rest are not
      splits into those two and the rest. */
  lemma SplitAfterTwo(ps: seq<Project>)
    requires |ps| >= 2 && ps[0].featured && ps[1].featured
    requires forall i :: 2 <= i < |ps| ==> !ps[i].featured
    ensures Featured(ps) == ps[..2] && Others(ps) == ps[2..]
  {
    var tail := ps[2..];
    assert forall i :: 0 <= i < |tail| ==> !tail[i].featured by {
      forall i | 0 <= i < |tail| ensures !tail[i].featured {
        assert tail[i] == ps[i + 2];
      }
    }
    FilterUniform(tail, false);
    assert ps[1..][1..] == tail;
    assert FilterByFeatured(ps[1..], true) == [ps[1]] + FilterByFeatured(tail, true);
    assert FilterByFeatured(ps[1..], false) == FilterByFeatured(tail, false);
    assert ps[..2] == [ps[0], ps[1]];
  }

  /** The two featured projects come first, the other four after them. */
  lemma SplitOfAllProjects()
    ensures Featured(AllProjects) == AllProjects[..2]
    ensures Others(AllProjects) == AllProjects[2..]
  {
    assert !AllProjects[2].featured && !AllProjects[3].featured;
    assert !AllProjects[4].featured && !AllProjects[5].featured;
    SplitAfterTwo(AllProjects);
  }

  // ---------------------------------------------------------------------
  // Badge label

  predicate IsDigit(c: char) {
    '0' <= c <= '9'
  }

  predicate AllDigits(s: string) {
    forall i :: 0 <= i < |s| ==> IsDigit(s[i])
  }

  function DigitChar(d: nat): (c: char)
    requires d < 10
    ensures IsDigit(c) && c as int - '0' as int == d
  {
    ('0' as int + d) as char
  }

  /** `String(n)`: decimal digits, no leading zero. */
  function DecimalString(n: nat): (s: string)
    ensures |s| >= 1 && AllDigits(s)
    ensures |s| > 1 ==> s[0] != '0'
    ensures n < 10 <==> |s| == 1
  {
    if n < 10 then [DigitChar(n)] else DecimalString(n / 10) + [DigitChar(n % 10)]
  }

  /** The number a string of decimal digits denotes. */
  function ParseDecimal(s: string): nat
    requires AllDigits(s)
  {
    if s == [] then 0
    else ParseDecimal(s[..|s| - 1]) * 10 + (s[|s| - 1] as int - '0' as int)
  }

  lemma {:induction false} DecimalRoundTrip(n: nat)
    ensures ParseDecimal(DecimalString(n)) == n
    decreases n
  {
    if n >= 10 {
      DecimalRoundTrip(n / 10);
      var s := DecimalString(n);
      assert s[..|s| - 1] == DecimalString(n / 10);
    }
  }

  /** `s.padStart(targetLength, fill)` for a one-character fill string. */
  function PadStart(s: string, targetLength: nat, fill: char): (r: string)
    ensures |r| == if |s| >= targetLength then |s| else targetLength
    ensures r[|r| - |s|..] == s
    ensures forall i :: 0 <= i < |r| - |s| ==> r[i] == fill
  {
    if |s| >= targetLength then s else seq(targetLength - |s|, _ => fill) + s
  }

  /** The badge of the featured card at position `index`:
      `String(index + 1).padStart(2, "0")`. */
  function Badge(index: nat): string {
    PadStart(DecimalString(index + 1), 2, '0')
  }

  /** "01" to "09" for the first nine cards, the plain number from the
      tenth on; the badge always reads back as index + 1. */
  lemma BadgeShape(index: nat)
    ensures |Badge(index)| >= 2 && AllDigits(Badge(index))
    ensures index < 9 ==> Badge(index) == ['0', DigitChar(index + 1)]
    ensures index >= 9 ==> Badge(index) == DecimalString(index + 1)
    ensures ParseDecimal(Badge(index)) == index + 1
  {
    DecimalRoundTrip(index + 1);
    if index < 9 {
      assert DecimalString(index + 1) == [DigitChar(index + 1)];
      var b := Badge(index);
      assert b[..1] == ['0'];
    }
  }
}
