/** The launch profiles offered to the user (d4science_hub/spawner.py,
    `profile_list`): the kept server options that the user's permissions
    authorise and that belong to the selected named-server flavour, turned
    into KubeSpawner profiles, followed by the statically configured extra
    profiles, all sorted by display name. */
module Profiles {
  import opened Hub
  import opened Strings
  import opened Catalog
  import Sorting

  /** A KubeSpawner profile: `display_name`, `description`, `slug`,
      `kubespawner_override` and `default`. */
  datatype Profile = Profile(
    displayName: string,
    description: string,
    slug: string,
    override: map<string, Json>,
    isDefault: bool)

  function DisplayName(p: Profile): string { p.displayName }

  /** `f"{repo}/{image.rsplit('/', 1)[-1]}"`: the image name moved to `repo`. */
  function RewriteImage(repo: string, image: string): (r: string)
    ensures |r| == |repo| + 1 + |LastSegment(image)|
    ensures r[..|repo|] == repo && r[|repo|] == '/'
    ensures r[|repo| + 1..] == LastSegment(image)
    ensures IsPrefix(repo + "/", r)
    ensures LastSegment(r) == LastSegment(image)
  {
    var r := repo + "/" + LastSegment(image);
    assert r[..|repo|] == repo;
    assert r[|repo| + 1..] == LastSegment(image);
    assert r[..|repo| + 1] == repo + "/";
    LastSegmentAfterSlash(repo, LastSegment(image));
    r
  }

  lemma LastSegmentAfterSlash(x: string, y: string)
    requires '/' !in y
    ensures LastSegment(x + "/" + y) == y
  {
    var s := x + "/" + y;
    assert s[|s| - |y|..] == y;
    assert s[|s| - |y| - 1] == '/';
  }

  /** Rewriting an already rewritten image changes nothing. */
  lemma RewriteImageIdempotent(repo: string, image: string)
    ensures RewriteImage(repo, RewriteImage(repo, image)) == RewriteImage(repo, image)
  {
    LastSegmentAfterSlash(repo, LastSegment(image));
  }

  /** The image a profile uses: rewritten only when an override repository is configured. */
  function ImageFor(repo: string, image: string): string {
    if repo != "" then RewriteImage(repo, image) else image
  }

  /** The CPU guarantee heuristic: one core up to a limit of four, two above. */
  function CpuGuarantee(limit: real): (g: int)
    ensures g == 1 || g == 2
    ensures g == 1 <==> limit <= 4.0
  {
    if limit <= 4.0 then 1 else 2
  }

  /** A larger CPU limit never gets a smaller guarantee; the guarantee stays
      within the limit from one core up, and exceeds a fractional limit. */
  lemma CpuGuaranteeMonotone(a: real, b: real)
    requires a <= b
    ensures CpuGuarantee(a) <= CpuGuarantee(b)
    ensures a >= 1.0 ==> CpuGuarantee(a) as real <= a
    ensures a < 1.0 ==> CpuGuarantee(a) as real > a
  {
  }

  /** `"%(#text)s%(@unit)s" % memory`, which raises KeyError on a missing key. */
  function MemLimit(m: Memory): (r: Result<string>)
    ensures r.Ok? <==> m.text.Some? && m.unit.Some?
    ensures r.Ok? ==> r.value == m.text.value + m.unit.value
    ensures m.text.None? ==> r == Err(MissingKey("#text"))
  {
    if m.text.None? then Err(MissingKey("#text"))
    else if m.unit.None? then Err(MissingKey("@unit"))
    else Ok(m.text.value + m.unit.value)
  }

  predicate CutComplete(cut: Option<Cut>) {
    cut.None? || cut.value.memory.None? || MemLimit(cut.value.memory.value).Ok?
  }

  /** The `cut_info` parts of a `Cut`. */
  function CutInfo(cut: Cut): seq<string>
    requires CutComplete(Some(cut))
  {
    (if cut.cores.Some? then [cut.cores.value.text + " Cores"] else [])
    + (if cut.memory.Some? then [MemLimit(cut.memory.value).value + " RAM"] else [])
  }

  function ResourcesOverride(cut: Option<Cut>): (o: map<string, Json>)
    requires CutComplete(cut)
    ensures o.Keys <= {"cpu_limit", "cpu_guarantee", "mem_limit"}
    ensures "cpu_limit" in o <==> cut.Some? && cut.value.cores.Some?
    ensures "cpu_guarantee" in o <==> cut.Some? && cut.value.cores.Some?
    ensures "mem_limit" in o <==> cut.Some? && cut.value.memory.Some?
    ensures "cpu_limit" in o ==> o["cpu_limit"] == JReal(cut.value.cores.value.value)
    ensures "cpu_guarantee" in o ==>
      o["cpu_guarantee"] == JInt(if cut.value.cores.value.value <= 4.0 then 1 else 2)
    ensures "mem_limit" in o ==>
      o["mem_limit"] == JStr(cut.value.memory.value.text.value + cut.value.memory.value.unit.value)
  {
    if cut.None? then map[]
    else
      var o := if cut.value.cores.Some? then
                 map["cpu_limit" := JReal(cut.value.cores.value.value),
                     "cpu_guarantee" := JInt(CpuGuarantee(cut.value.cores.value.value))]
               else map[];
      if cut.value.memory.Some? then o["mem_limit" := JStr(MemLimit(cut.value.memory.value).value)] else o
  }

  function OverrideOf(so: ServerOption, repo: string, gpuOverride: map<string, Json>): map<string, Json>
    requires CutComplete(so.cut)
  {
    var image := if so.imageId.Some? then map["image" := JStr(ImageFor(repo, so.imageId.value))] else map[];
    var o := image + ResourcesOverride(so.cut);
    if so.gpu == Some("true") then o + gpuOverride else o
  }

  /** The KubeSpawner profile of one admitted server option. */
  function ProfileOf(so: ServerOption, repo: string, gpuOverride: map<string, Json>): (r: Result<Profile>)
    ensures r.Ok? <==> CutComplete(so.cut)
    ensures so.cut.Some? && so.cut.value.memory.Some? && so.cut.value.memory.value.text.None?
            ==> r == Err(MissingKey("#text"))
    ensures r.Ok? ==> var p := r.value;
      && p.slug == so.authId.GetOr("")
      && p.description == so.info.GetOr(Info(None, None)).description.GetOr("")
      && (p.isDefault <==> so.default == Some("true"))
      && (so.cut.None? ==> p.displayName == so.info.GetOr(Info(None, None)).name.GetOr(""))
      && (so.cut.Some? ==> p.displayName == so.info.GetOr(Info(None, None)).name.GetOr("")
                                            + " - " + Join(" / ", CutInfo(so.cut.value)))
  {
    if !CutComplete(so.cut) then Err(MissingKey(if so.cut.value.memory.value.text.None? then "#text" else "@unit"))
    else
      var info := so.info.GetOr(Info(None, None));
      var name := info.name.GetOr("");
      Ok(Profile(
        if so.cut.Some? then name + " - " + Join(" / ", CutInfo(so.cut.value)) else name,
        info.description.GetOr(""),
        so.authId.GetOr(""),
        OverrideOf(so, repo, gpuOverride),
        so.default == Some("true")))
  }

  /** The `kubespawner_override` of a profile: the GPU block is merged in
      only for `@gpu == "true"` and wins over everything else; otherwise
      the image (rewritten to the override repository), the CPU limit and
      guarantee and the memory limit are there exactly when the option
      declares them. */
  lemma ProfileOverride(so: ServerOption, repo: string, gpu: map<string, Json>, k: string)
    requires ProfileOf(so, repo, gpu).Ok?
    ensures var o := ProfileOf(so, repo, gpu).value.override;
      && (so.gpu == Some("true") && k in gpu ==> k in o && o[k] == gpu[k])
      && (so.gpu != Some("true") ==> o.Keys <= {"image", "cpu_limit", "cpu_guarantee", "mem_limit"})
      && ((so.gpu != Some("true") || k !in gpu) ==>
           && (k == "image" ==> ((k in o <==> so.imageId.Some?)
                 && (k in o ==> o[k] == JStr(ImageFor(repo, so.imageId.value)))))
           && (k == "cpu_limit" ==> ((k in o <==> so.cut.Some? && so.cut.value.cores.Some?)
                 && (k in o ==> o[k] == JReal(so.cut.value.cores.value.value))))
           && (k == "cpu_guarantee" ==> ((k in o <==> so.cut.Some? && so.cut.value.cores.Some?)
                 && (k in o ==> o[k] == JInt(if so.cut.value.cores.value.value <= 4.0 then 1 else 2))))
           && (k == "mem_limit" ==> ((k in o <==> so.cut.Some? && so.cut.value.memory.Some?)
                 && (k in o ==> o[k] == JStr(so.cut.value.memory.value.text.value
                                             + so.cut.value.memory.value.unit.value)))))
  {
  }

  /** The option is authorised (`AuthId` among the granted resource names)
      and belongs to the selected named-server flavour. */
  predicate Admitted(t: TaggedOption, allowed: seq<string>, selected: string) {
    t.option.authId.GetOr("") in allowed && t.serverOptionName == selected
  }

  /** The profiles of the admitted options, in option order; the first
      admitted option whose profile cannot be built raises. */
  function CatalogProfiles(opts: seq<TaggedOption>, allowed: seq<string>, selected: string,
                           repo: string, gpu: map<string, Json>): Result<seq<Profile>>
  {
    if opts == [] then Ok([])
    else
      var rest := CatalogProfiles(opts[1..], allowed, selected, repo, gpu);
      if !Admitted(opts[0], allowed, selected) then rest
      else match ProfileOf(opts[0].option, repo, gpu)
        case Err(e) => Err(e)
        case Ok(p) => if rest.Err? then rest else Ok([p] + rest.value)
  }

  /** The list the loop builds: a default profile is inserted at the front,
      any other appended. */
  function Staged(ps: seq<Profile>): seq<Profile> {
    if ps == [] then []
    else
      var before := Staged(ps[..|ps| - 1]);
      var p := ps[|ps| - 1];
      if p.isDefault then [p] + before else before + [p]
  }

  function Defaults(ps: seq<Profile>): seq<Profile> {
    if ps == [] then [] else (if ps[0].isDefault then [ps[0]] else []) + Defaults(ps[1..])
  }

  function Others(ps: seq<Profile>): seq<Profile> {
    if ps == [] then [] else (if ps[0].isDefault then [] else [ps[0]]) + Others(ps[1..])
  }

  function Reverse<T>(s: seq<T>): seq<T> {
    if s == [] then [] else Reverse(s[1..]) + [s[0]]
  }

  /** `server_option_name`: the spawner name without its prefix, or the
      default option name for the unnamed server. */
  function SelectedOptionName(spawnerName: string, prefix: string, default: string): (r: string)
    ensures spawnerName == "" ==> r == default
    ensures spawnerName != "" && IsPrefix(prefix, spawnerName) ==> prefix + r == spawnerName
    ensures spawnerName != "" && !IsPrefix(prefix, spawnerName) ==> r == spawnerName
  {
    if spawnerName != "" then RemovePrefix(spawnerName, prefix) else default
  }

  /** `profile_list`: the catalog profiles only when both the granted
      resource names and the kept options are non-empty, then the extra
      profiles, stably sorted by display name. */
  function ProfileList(allowed: seq<string>, opts: seq<TaggedOption>, selected: string,
                       repo: string, gpu: map<string, Json>, extra: seq<Profile>): Result<seq<Profile>>
  {
    if allowed != [] && opts != [] then
      match CatalogProfiles(opts, allowed, selected, repo, gpu)
      case Err(e) => Err(e)
      case Ok(cat) => Ok(Sorting.SortBy(Staged(cat) + extra, DisplayName))
    else Ok(Sorting.SortBy(extra, DisplayName))
  }

  // ---------------------------------------------------------------------
  // Properties of the profile list

  lemma {:induction false} ReverseSnoc<T>(s: seq<T>, x: T)
    ensures Reverse(s + [x]) == [x] + Reverse(s)
  {
    if s != [] {
      ReverseSnoc(s[1..], x);
      assert (s + [x])[1..] == s[1..] + [x];
    }
  }

  lemma {:induction false} DefaultsSnoc(a: seq<Profile>, x: Profile)
    ensures Defaults(a + [x]) == Defaults(a) + (if x.isDefault then [x] else [])
  {
    if a == [] {
      assert a + [x] == [x];
    } else {
      DefaultsSnoc(a[1..], x);
      assert (a + [x])[1..] == a[1..] + [x];
      assert (a + [x])[0] == a[0];
    }
  }

  lemma {:induction false} OthersSnoc(a: seq<Profile>, x: Profile)
    ensures Others(a + [x]) == Others(a) + (if x.isDefault then [] else [x])
  {
    if a == [] {
      assert a + [x] == [x];
    } else {
      OthersSnoc(a[1..], x);
      assert (a + [x])[1..] == a[1..] + [x];
      assert (a + [x])[0] == a[0];
    }
  }

  /** The staged list holds the default profiles, last one first, then the
      others in option order. */
  lemma {:induction false} StagedShape(ps: seq<Profile>)
    ensures Staged(ps) == Reverse(Defaults(ps)) + Others(ps)
  {
    if ps != [] {
      var a, x := ps[..|ps| - 1], ps[|ps| - 1];
      assert ps == a + [x];
      StagedShape(a);
      DefaultsSnoc(a, x);
      OthersSnoc(a, x);
      if x.isDefault {
        ReverseSnoc(Defaults(a), x);
        assert Staged(ps) == [x] + Staged(a);
      } else {
        assert Defaults(ps) == Defaults(a);
        assert Others(ps) == Others(a) + [x];
        assert Staged(ps) == Staged(a) + [x];
      }
    }
  }

  lemma {:induction false} StagedPermutation(ps: seq<Profile>)
    ensures multiset(Staged(ps)) == multiset(ps)
  {
    if ps != [] {
      StagedPermutation(ps[..|ps| - 1]);
      assert ps == ps[..|ps| - 1] + [ps[|ps| - 1]];
    }
  }

  /** A profile comes from the catalog exactly when some option is admitted
      and builds to it; the list fails exactly when some admitted option's
      profile cannot be built. */
  lemma {:induction false} CatalogProfilesSpec(opts: seq<TaggedOption>, allowed: seq<string>, selected: string,
                                               repo: string, gpu: map<string, Json>, q: Profile)
    ensures var r := CatalogProfiles(opts, allowed, selected, repo, gpu);
      && (r.Err? <==> exists i :: 0 <= i < |opts| && Admitted(opts[i], allowed, selected)
                                  && ProfileOf(opts[i].option, repo, gpu).Err?)
      && (r.Ok? ==> (q in r.value <==> exists i :: 0 <= i < |opts| && Admitted(opts[i], allowed, selected)
                                                    && ProfileOf(opts[i].option, repo, gpu) == Ok(q)))
  {
    if opts != [] {
      CatalogProfilesSpec(opts[1..], allowed, selected, repo, gpu, q);
      forall i | 1 <= i < |opts| ensures opts[i] == opts[1..][i - 1] { }
      var r := CatalogProfiles(opts, allowed, selected, repo, gpu);
      if exists i :: 0 <= i < |opts[1..]| && Admitted(opts[1..][i], allowed, selected)
                     && ProfileOf(opts[1..][i].option, repo, gpu).Err? {
        var i :| 0 <= i < |opts[1..]| && Admitted(opts[1..][i], allowed, selected)
                 && ProfileOf(opts[1..][i].option, repo, gpu).Err?;
        assert opts[i + 1] == opts[1..][i];
      }
      if r.Ok? && exists i :: 0 <= i < |opts[1..]| && Admitted(opts[1..][i], allowed, selected)
                              && ProfileOf(opts[1..][i].option, repo, gpu) == Ok(q) {
        var i :| 0 <= i < |opts[1..]| && Admitted(opts[1..][i], allowed, selected)
                 && ProfileOf(opts[1..][i].option, repo, gpu) == Ok(q);
        assert opts[i + 1] == opts[1..][i];
      }
    }
  }

  /** `profile_list` returns every admitted catalog profile and every extra
      profile, each as often as it occurs, in non-decreasing display-name
      order; among equal display names the default catalog profiles come
      first (the last one first), then the other catalog profiles, then the
      extra profiles.  The catalog takes part only when both the granted
      resource names and the kept options are non-empty. */
  lemma ProfileListSpec(allowed: seq<string>, opts: seq<TaggedOption>, selected: string,
                        repo: string, gpu: map<string, Json>, extra: seq<Profile>, k: string)
    ensures var r := ProfileList(allowed, opts, selected, repo, gpu, extra);
      var gate := allowed != [] && opts != [];
      var cat := CatalogProfiles(opts, allowed, selected, repo, gpu);
      && (r.Err? <==> gate && cat.Err?)
      && (r.Ok? ==>
           var c := if gate then cat.value else [];
           && Sorting.SortedBy(r.value, DisplayName)
           && multiset(r.value) == multiset(c) + multiset(extra)
           && Sorting.WithKey(r.value, DisplayName, k)
              == Sorting.WithKey(Reverse(Defaults(c)), DisplayName, k)
                 + Sorting.WithKey(Others(c), DisplayName, k)
                 + Sorting.WithKey(extra, DisplayName, k))
  {
    var r := ProfileList(allowed, opts, selected, repo, gpu, extra);
    var cat := CatalogProfiles(opts, allowed, selected, repo, gpu);
    if r.Ok? {
      var c := if allowed != [] && opts != [] then cat.value else [];
      var pre := Staged(c) + extra;
      assert r.value == Sorting.SortBy(pre, DisplayName) by {
        if c == [] { assert pre == extra; }
      }
      Sorting.SortBySortedPermutation(pre, DisplayName);
      Sorting.SortByStable(pre, DisplayName, k);
      StagedPermutation(c);
      StagedShape(c);
      Sorting.WithKeyAppend(Staged(c), extra, DisplayName, k);
      Sorting.WithKeyAppend(Reverse(Defaults(c)), Others(c), DisplayName, k);
    }
  }

  /** Three catalog profiles "Zed", "Alpha" and the default "Mid": the sort
      puts "Mid" between the other two; the default comes first only among
      equal display names. */
  lemma DefaultIsNotPinned()
    ensures var zed := Profile("Zed", "", "z", map[], false);
      var alpha := Profile("Alpha", "", "a", map[], false);
      var mid := Profile("Mid", "", "m", map[], true);
      Sorting.SortBy(Staged([zed, alpha, mid]), DisplayName) == [alpha, mid, zed]
  {
    var zed := Profile("Zed", "", "z", map[], false);
    var alpha := Profile("Alpha", "", "a", map[], false);
    var mid := Profile("Mid", "", "m", map[], true);
    assert [zed, alpha, mid][..2] == [zed, alpha];
    assert [zed, alpha][..1] == [zed];
    assert [zed][..0] == [];
    assert Staged([zed]) == [zed];
    assert Staged([zed, alpha]) == [zed, alpha];
    assert Staged([zed, alpha, mid]) == [mid, zed, alpha];
    assert !LexLe("Zed", "Alpha") && !LexLe("Mid", "Alpha") && LexLe("Mid", "Zed");
    assert [mid, zed, alpha][1..] == [zed, alpha];
    assert [zed, alpha][1..] == [alpha];
    assert Sorting.SortBy([alpha], DisplayName) == [alpha];
    assert [alpha][1..] == [];
    assert Sorting.Insert(zed, [alpha], DisplayName) == [alpha, zed];
    assert Sorting.SortBy([zed, alpha], DisplayName) == [alpha, zed];
    assert Sorting.Insert(mid, [zed], DisplayName) == [mid, zed];
  }
}
