/** The JupyterHub resource description fetched from the D4Science
    Information System (the `xmltodict` tree of `genericResources`), and
    its split into role-eligible server options and volume permissions
    (d4science_hub/spawner.py, `build_resource_options`).

    A field is `None` when its key is absent.  For `Body.serverOption` and
    `Body.volumeOption`, which the code tests with `p.get(...)`, `None`
    also stands for a falsy value (an empty element). */
module Catalog {
  import opened Hub
  import OrderedDict

  datatype Info = Info(name: Option<string>, description: Option<string>)
  /** The `Cores` text and the number `float` reads from it. */
  datatype Cores = Cores(text: string, value: real)
  /** `Memory`, with its `#text` and `@unit` keys. */
  datatype Memory = Memory(text: Option<string>, unit: Option<string>)
  datatype Cut = Cut(cores: Option<Cores>, memory: Option<Memory>)

  datatype ServerOption = ServerOption(
    authId: Option<string>,     // AuthId
    info: Option<Info>,         // Info
    imageId: Option<string>,    // ImageId
    cut: Option<Cut>,           // Cut
    gpu: Option<string>,        // @gpu
    default: Option<string>,    // @default
    role: Option<string>)       // @role

  datatype VolumeOption = VolumeOption(name: Option<string>, permission: Option<string>)
  datatype Body = Body(serverOption: Option<ServerOption>, volumeOption: Option<VolumeOption>)
  datatype ResourceProfile = ResourceProfile(name: Option<string>, body: Option<Body>)
  datatype Resource = Resource(profile: Option<ResourceProfile>)
  /** `xmltodict` gives one element as a dictionary and several as a list. */
  datatype Resources = One(resource: Resource) | Many(resources: seq<Resource>)
  datatype GenericResources = GenericResources(resource: Option<Resources>)
  datatype Document = Document(genericResources: Option<GenericResources>)

  /** A kept server option together with the `server_option_name` tag the
      code adds to it. */
  datatype TaggedOption = TaggedOption(option: ServerOption, serverOptionName: string)

  type VolumeOptions = seq<OrderedDict.Entry<string, string>>

  datatype Split = Split(serverOptions: seq<TaggedOption>, volumeOptions: VolumeOptions)

  /** What has been gathered so far, and whether a KeyError ended the loop. */
  datatype Progress = Progress(split: Split, stopped: bool)

  const NoSplit := Split([], [])

  /** `resources["genericResources"]["Resource"]`, normalised to a list; a
      missing key leaves nothing to process. */
  function ResourceList(doc: Document): seq<Resource> {
    match doc.genericResources
    case None => []
    case Some(g) =>
      match g.resource
      case None => []
      case Some(One(r)) => [r]
      case Some(Many(rs)) => rs
  }

  function BodyOf(r: Resource): Body {
    r.profile.GetOr(ResourceProfile(None, None)).body.GetOr(Body(None, None))
  }

  function NameOf(r: Resource): string {
    r.profile.GetOr(ResourceProfile(None, None)).name.GetOr("")
  }

  /** The role rule: an option's `@role`, when non-empty, must be one of the user's roles. */
  predicate RoleAdmits(role: Option<string>, roles: seq<string>) {
    role.GetOr("") == "" || role.GetOr("") in roles
  }

  /** The server option that entry `r` contributes, if any. */
  function Keep(roles: seq<string>, names: seq<string>, r: Resource): (t: Option<TaggedOption>)
    ensures t.Some? <==>
      BodyOf(r).serverOption.Some? && RoleAdmits(BodyOf(r).serverOption.value.role, roles)
      && NameOf(r) in names
    ensures t.Some? ==> t.value == TaggedOption(BodyOf(r).serverOption.value, NameOf(r))
  {
    var body := BodyOf(r);
    if body.serverOption.Some? && RoleAdmits(body.serverOption.value.role, roles)
       && NameOf(r) in names
    then Some(TaggedOption(body.serverOption.value, NameOf(r)))
    else None
  }

  /** An entry whose `VolumeOption` lacks `Name` or `Permission`: the code
      raises a KeyError there. */
  predicate Malformed(r: Resource) {
    var body := BodyOf(r);
    body.serverOption.None? && body.volumeOption.Some?
    && (body.volumeOption.value.name.None? || body.volumeOption.value.permission.None?)
  }

  /** An entry that is a well-formed volume option. */
  predicate IsVolume(r: Resource) {
    var body := BodyOf(r);
    body.serverOption.None? && body.volumeOption.Some?
    && body.volumeOption.value.name.Some? && body.volumeOption.value.permission.Some?
  }

  /** One iteration of the loop over the resource list. */
  function Step(roles: seq<string>, names: seq<string>, acc: Split, r: Resource): (p: Progress)
    requires OrderedDict.DistinctKeys(acc.volumeOptions)
    ensures OrderedDict.DistinctKeys(p.split.volumeOptions)
  {
    var body := BodyOf(r);
    if body.serverOption.Some? then
      var role := body.serverOption.value.role.GetOr("");
      if role != "" && role !in roles then Progress(acc, false)
      else if NameOf(r) in names then
        Progress(Split(acc.serverOptions + [TaggedOption(body.serverOption.value, NameOf(r))],
                       acc.volumeOptions), false)
      else Progress(acc, false)
    else if body.volumeOption.Some? then
      var vo := body.volumeOption.value;
      if vo.name.None? || vo.permission.None? then Progress(acc, true)
      else Progress(Split(acc.serverOptions,
                          OrderedDict.Put(acc.volumeOptions, vo.name.value, vo.permission.value)), false)
    else Progress(acc, false)
  }

  /** The loop over `rs`, with the KeyError handler around all of it. */
  function Run(roles: seq<string>, names: seq<string>, rs: seq<Resource>): (p: Progress)
    ensures OrderedDict.DistinctKeys(p.split.volumeOptions)
  {
    if rs == [] then Progress(NoSplit, false)
    else
      var before := Run(roles, names, rs[..|rs| - 1]);
      if before.stopped then before else Step(roles, names, before.split, rs[|rs| - 1])
  }

  /** `build_resource_options(roles, resources)`. */
  function SplitCatalog(roles: seq<string>, names: seq<string>, doc: Document): Split {
    Run(roles, names, ResourceList(doc)).split
  }

  /** The server options a list contributes when nothing stops the loop. */
  function Kept(roles: seq<string>, names: seq<string>, rs: seq<Resource>): seq<TaggedOption> {
    if rs == [] then []
    else (match Keep(roles, names, rs[0]) case Some(t) => [t] case None => [])
         + Kept(roles, names, rs[1..])
  }

  /** The volume permissions a list contributes: each name maps to the
      permission of its LAST volume entry. */
  function VolumeMap(rs: seq<Resource>): map<string, string> {
    if rs == [] then map[]
    else
      var later := VolumeMap(rs[1..]);
      if IsVolume(rs[0]) && BodyOf(rs[0]).volumeOption.value.name.value !in later
      then later[BodyOf(rs[0]).volumeOption.value.name.value := BodyOf(rs[0]).volumeOption.value.permission.value]
      else later
  }

  /** Index of the first malformed entry, or `|rs|`. */
  function FirstMalformed(rs: seq<Resource>): (k: nat)
    ensures k <= |rs|
    ensures forall i :: 0 <= i < k ==> !Malformed(rs[i])
    ensures k < |rs| ==> Malformed(rs[k])
  {
    if rs == [] then 0 else if Malformed(rs[0]) then 0 else 1 + FirstMalformed(rs[1..])
  }

  // ---------------------------------------------------------------------
  // Properties of the split

  lemma {:induction false} RunNoMalformed(roles: seq<string>, names: seq<string>, rs: seq<Resource>)
    requires forall i :: 0 <= i < |rs| ==> !Malformed(rs[i])
    ensures !Run(roles, names, rs).stopped
  {
    if rs != [] { RunNoMalformed(roles, names, rs[..|rs| - 1]); }
  }

  /** A KeyError ends the loop: the entry that raised it and all the
      entries after it add nothing. */
  lemma {:induction false} RunStopsAt(roles: seq<string>, names: seq<string>,
                                      a: seq<Resource>, bad: Resource, tail: seq<Resource>)
    requires Malformed(bad) && !Run(roles, names, a).stopped
    ensures Run(roles, names, a + [bad] + tail) == Progress(Run(roles, names, a).split, true)
    decreases |tail|
  {
    if tail == [] {
      assert a + [bad] + tail == a + [bad];
      assert (a + [bad])[..|a|] == a;
    } else {
      var front := tail[..|tail| - 1];
      RunStopsAt(roles, names, a, bad, front);
      assert (a + [bad] + tail)[..|a + [bad] + tail| - 1] == a + [bad] + front;
    }
  }

  /** The partial-result rule: the split is what the entries before the
      first malformed one give, and the loop stopped iff there is one. */
  lemma RunStopsAtFirstMalformed(roles: seq<string>, names: seq<string>, rs: seq<Resource>)
    ensures Run(roles, names, rs).split == Run(roles, names, rs[..FirstMalformed(rs)]).split
    ensures Run(roles, names, rs).stopped <==> FirstMalformed(rs) < |rs|
  {
    var k := FirstMalformed(rs);
    RunNoMalformed(roles, names, rs[..k]);
    if k < |rs| {
      RunStopsAt(roles, names, rs[..k], rs[k], rs[k + 1..]);
      SplitAround(rs, k);
    } else {
      assert rs[..k] == rs;
    }
  }

  lemma {:induction false} KeptSnoc(roles: seq<string>, names: seq<string>, a: seq<Resource>, x: Resource)
    ensures Kept(roles, names, a + [x])
         == Kept(roles, names, a) + (match Keep(roles, names, x) case Some(t) => [t] case None => [])
  {
    if a == [] {
      assert (a + [x])[1..] == [];
    } else {
      KeptSnoc(roles, names, a[1..], x);
      assert (a + [x])[1..] == a[1..] + [x];
    }
  }

  lemma {:induction false} VolumeMapSnoc(a: seq<Resource>, x: Resource)
    ensures VolumeMap(a + [x]) == if IsVolume(x)
      then VolumeMap(a)[BodyOf(x).volumeOption.value.name.value := BodyOf(x).volumeOption.value.permission.value]
      else VolumeMap(a)
  {
    if a == [] {
      assert (a + [x])[1..] == [];
    } else {
      VolumeMapSnoc(a[1..], x);
      assert (a + [x])[1..] == a[1..] + [x];
    }
  }

  /** Without a malformed entry the loop keeps exactly the eligible server
      options, in catalog order, and every volume name maps to its last
      permission. */
  lemma {:induction false} RunClean(roles: seq<string>, names: seq<string>, rs: seq<Resource>)
    requires forall i :: 0 <= i < |rs| ==> !Malformed(rs[i])
    ensures Run(roles, names, rs).split.serverOptions == Kept(roles, names, rs)
    ensures OrderedDict.ToMap(Run(roles, names, rs).split.volumeOptions) == VolumeMap(rs)
  {
    if rs != [] {
      var a, x := rs[..|rs| - 1], rs[|rs| - 1];
      assert rs == a + [x];
      RunClean(roles, names, a);
      RunNoMalformed(roles, names, a);
      KeptSnoc(roles, names, a, x);
      VolumeMapSnoc(a, x);
      var acc := Run(roles, names, a).split;
      if IsVolume(x) {
        var vo := BodyOf(x).volumeOption.value;
        OrderedDict.PutToMap(acc.volumeOptions, vo.name.value, vo.permission.value);
      }
    }
  }

  lemma {:induction false} KeptMembers(roles: seq<string>, names: seq<string>, rs: seq<Resource>, t: TaggedOption)
    ensures t in Kept(roles, names, rs) <==> exists i :: 0 <= i < |rs| && Keep(roles, names, rs[i]) == Some(t)
  {
    if rs != [] {
      KeptMembers(roles, names, rs[1..], t);
      if Keep(roles, names, rs[0]) != Some(t) && t in Kept(roles, names, rs) {
        var i :| 0 <= i < |rs[1..]| && Keep(roles, names, rs[1..][i]) == Some(t);
        assert rs[i + 1] == rs[1..][i];
      }
      if t !in Kept(roles, names, rs) {
        forall i | 1 <= i < |rs| ensures Keep(roles, names, rs[i]) != Some(t) {
          assert rs[i] == rs[1..][i - 1];
        }
      }
    }
  }

  /** `build_resource_options`, characterised: the entries processed are
      those before the first malformed volume option; of those, a server
      option is kept exactly when its role is empty or held and its profile
      name is allowed, tagged with that name; every processed volume
      option maps its name to its last permission, whatever the roles. */
  lemma SplitCatalogSpec(roles: seq<string>, names: seq<string>, doc: Document, t: TaggedOption)
    ensures var rs := ResourceList(doc); var k := FirstMalformed(rs);
      && (t in SplitCatalog(roles, names, doc).serverOptions <==>
          exists i :: 0 <= i < k && BodyOf(rs[i]).serverOption.Some?
            && RoleAdmits(BodyOf(rs[i]).serverOption.value.role, roles) && NameOf(rs[i]) in names
            && t == TaggedOption(BodyOf(rs[i]).serverOption.value, NameOf(rs[i])))
      && OrderedDict.ToMap(SplitCatalog(roles, names, doc).volumeOptions) == VolumeMap(rs[..k])
  {
    var rs := ResourceList(doc);
    var k := FirstMalformed(rs);
    RunStopsAtFirstMalformed(roles, names, rs);
    RunClean(roles, names, rs[..k]);
    KeptMembers(roles, names, rs[..k], t);
    if t in SplitCatalog(roles, names, doc).serverOptions {
      var i :| 0 <= i < k && Keep(roles, names, rs[..k][i]) == Some(t);
      assert rs[..k][i] == rs[i];
    }
    if exists i :: 0 <= i < k && BodyOf(rs[i]).serverOption.Some?
            && RoleAdmits(BodyOf(rs[i]).serverOption.value.role, roles) && NameOf(rs[i]) in names
            && t == TaggedOption(BodyOf(rs[i]).serverOption.value, NameOf(rs[i])) {
      var i :| 0 <= i < k && BodyOf(rs[i]).serverOption.Some?
            && RoleAdmits(BodyOf(rs[i]).serverOption.value.role, roles) && NameOf(rs[i]) in names
            && t == TaggedOption(BodyOf(rs[i]).serverOption.value, NameOf(rs[i]));
      assert rs[..k][i] == rs[i];
    }
  }

  /** Volume options are collected the same way whatever the roles and
      the allowed option names. */
  lemma {:induction false} VolumesIgnoreRoles(roles: seq<string>, names: seq<string>,
                                              roles': seq<string>, names': seq<string>, rs: seq<Resource>)
    ensures Run(roles, names, rs).split.volumeOptions == Run(roles', names', rs).split.volumeOptions
    ensures Run(roles, names, rs).stopped == Run(roles', names', rs).stopped
  {
    if rs != [] { VolumesIgnoreRoles(roles, names, roles', names', rs[..|rs| - 1]); }
  }

  /** A catalog without `genericResources` or without `Resource` gives
      `([], {})`. */
  lemma MissingResourcesIsEmpty(roles: seq<string>, names: seq<string>, doc: Document)
    requires doc.genericResources.None? || doc.genericResources.value.resource.None?
    ensures SplitCatalog(roles, names, doc) == NoSplit
  {
  }

  /** One `Resource` element is read as a one-element list. */
  lemma SingleIsOneElementList(roles: seq<string>, names: seq<string>, r: Resource)
    ensures SplitCatalog(roles, names, Document(Some(GenericResources(Some(One(r))))))
         == SplitCatalog(roles, names, Document(Some(GenericResources(Some(Many([r]))))))
  {
  }
}
