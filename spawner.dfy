/** The D4Science spawner (d4science_hub/spawner.py): a KubeSpawner whose
    profiles, volumes and workspace access come from the permissions, roles
    and resource description the authenticator stored in `auth_state`.

    JupyterHub calls the hooks `auth_state_hook(spawner, ...)`,
    `profile_list(spawner)` and `pre_spawn_hook(spawner)` with the spawner
    itself as argument, so the model's methods act on `this`. */
module Spawner {
  import opened Hub
  import opened Strings
  import opened Catalog
  import opened Profiles
  import opened Session
  import OrderedDict
  import Sorting

  /** An entry of `volume_mappings`: its `mount_path` and `volume` keys. */
  datatype VolumeMapping = VolumeMapping(mountPath: Option<Json>, volume: Option<map<string, Json>>)

  /** The spawner's configurable traits. */
  datatype Config = Config(
    workspaceSecurityContext: map<string, Json>,
    useSidecar: bool,
    sidecarImage: string,
    volumeMappings: map<string, VolumeMapping>,
    extraProfiles: seq<Profile>,
    serverOptionsNames: seq<string>,
    defaultServerOptionName: string,
    serverNamePrefix: string,
    dataManagerRole: string,
    imageRepoOverride: string,
    gpuOverride: map<string, Json>)

  const DefaultServerOptionsNames: seq<string> :=
    ["ServerOption", "RStudioServerOption", "WITOILServerOption", "webODVServerOption"]
  const DefaultServerOptionName := "ServerOption"
  const DefaultServerNamePrefix := "rname-"
  const DefaultDataManagerRole := "Data-Manager"

  /** `environment.get(key, "")`. */
  function EnvGet(env: map<string, string>, key: string): string {
    if key in env then env[key] else ""
  }

  // ---------------------------------------------------------------------
  // Volumes

  /** A mount is writable when the catalog says `Read-Write` or the user
      holds the data-manager role. */
  predicate ReadWrite(permission: string, roles: seq<string>, dataManagerRole: string) {
    permission == "Read-Write" || dataManagerRole in roles
  }

  /** `{"name": vol_name}` updated with the mapping's `volume`. */
  function VolumeEntry(volName: string, volume: map<string, Json>): map<string, Json> {
    map["name" := JStr(volName)] + volume
  }

  function MountEntry(volName: string, mountPath: Json, readOnly: bool): map<string, Json> {
    map["name" := JStr(volName), "mountPath" := mountPath, "readOnly" := JBool(readOnly)]
  }

  /** Volumes and mounts added by the hook, and the KeyError that ended it, if any. */
  datatype Assembly = Assembly(volumes: seq<map<string, Json>>, mounts: seq<map<string, Json>>,
                               failure: Option<Error>)

  /** What one iteration of the hook's loop over the volume options
      appends: nothing for an unmapped option, else the volume and then the
      mount, each missing key raising at the point Python reads it. */
  function Attached(mappings: map<string, VolumeMapping>, roles: seq<string>, dataManagerRole: string,
                    e: OrderedDict.Entry<string, string>): Assembly
  {
    if e.key !in mappings then Assembly([], [], None)
    else
      var volName := D4ScienceSpawner.GetVolumeName(e.key);
      var m := mappings[e.key];
      if m.volume.None? then Assembly([], [], Some(MissingKey("volume")))
      else if m.mountPath.None? then Assembly([VolumeEntry(volName, m.volume.value)], [], Some(MissingKey("mount_path")))
      else Assembly([VolumeEntry(volName, m.volume.value)],
                    [MountEntry(volName, m.mountPath.value, !ReadWrite(e.value, roles, dataManagerRole))],
                    None)
  }

  /** The whole loop: the contributions in order, up to and including the
      first that raises. */
  function Assemble(mappings: map<string, VolumeMapping>, roles: seq<string>, dataManagerRole: string,
                    vopts: VolumeOptions): Assembly
  {
    if vopts == [] then Assembly([], [], None)
    else
      var before := Assemble(mappings, roles, dataManagerRole, vopts[..|vopts| - 1]);
      if before.failure.Some? then before
      else
        var d := Attached(mappings, roles, dataManagerRole, vopts[|vopts| - 1]);
        Assembly(before.volumes + d.volumes, before.mounts + d.mounts, d.failure)
  }

  /** The volume options that have a mapping, in dictionary order. */
  function Mapped(mappings: map<string, VolumeMapping>, vopts: VolumeOptions): VolumeOptions {
    if vopts == [] then []
    else (if vopts[0].key in mappings then [vopts[0]] else []) + Mapped(mappings, vopts[1..])
  }

  predicate MappingsComplete(mappings: map<string, VolumeMapping>) {
    forall k :: k in mappings ==> mappings[k].mountPath.Some? && mappings[k].volume.Some?
  }

  lemma {:induction false} AssembleAfterFailure(mappings: map<string, VolumeMapping>, roles: seq<string>,
                                                dm: string, a: VolumeOptions, b: VolumeOptions)
    requires Assemble(mappings, roles, dm, a).failure.Some?
    ensures Assemble(mappings, roles, dm, a + b) == Assemble(mappings, roles, dm, a)
    decreases |b|
  {
    if b == [] {
      assert a + b == a;
    } else {
      AssembleAfterFailure(mappings, roles, dm, a, b[..|b| - 1]);
      assert (a + b)[..|a + b| - 1] == a + b[..|b| - 1];
    }
  }

  lemma AssembleSnoc(mappings: map<string, VolumeMapping>, roles: seq<string>, dm: string,
                     a: VolumeOptions, x: OrderedDict.Entry<string, string>)
    ensures Assemble(mappings, roles, dm, a + [x])
         == var before := Assemble(mappings, roles, dm, a);
            var d := Attached(mappings, roles, dm, x);
            if before.failure.Some? then before
            else Assembly(before.volumes + d.volumes, before.mounts + d.mounts, d.failure)
  {
    assert (a + [x])[..|a + [x]| - 1] == a;
  }

  /** The loop invariant's step, and its exits: a failure fixes the
      result, and the last prefix is the whole list. */
  lemma AssembleStep(mappings: map<string, VolumeMapping>, roles: seq<string>, dm: string,
                     vopts: VolumeOptions, i: nat)
    requires i <= |vopts|
    ensures i == |vopts| ==> vopts[..i] == vopts
    ensures i < |vopts| && Assemble(mappings, roles, dm, vopts[..i]).failure.None? ==>
      var before := Assemble(mappings, roles, dm, vopts[..i]);
      var d := Attached(mappings, roles, dm, vopts[i]);
      && Assemble(mappings, roles, dm, vopts[..i + 1])
         == Assembly(before.volumes + d.volumes, before.mounts + d.mounts, d.failure)
      && (d.failure.Some? ==> Assemble(mappings, roles, dm, vopts) == Assemble(mappings, roles, dm, vopts[..i + 1]))
  {
    if i < |vopts| {
      AssembleSnoc(mappings, roles, dm, vopts[..i], vopts[i]);
      assert vopts[..i + 1] == vopts[..i] + [vopts[i]];
      if Assemble(mappings, roles, dm, vopts[..i + 1]).failure.Some? {
        AssembleAfterFailure(mappings, roles, dm, vopts[..i + 1], vopts[i + 1..]);
        SplitAt(vopts, i + 1);
      }
    }
  }

  lemma {:induction false} MappedSnoc(mappings: map<string, VolumeMapping>, a: VolumeOptions,
                                      x: OrderedDict.Entry<string, string>)
    ensures Mapped(mappings, a + [x]) == Mapped(mappings, a) + (if x.key in mappings then [x] else [])
  {
    if a == [] {
      assert a + [x] == [x];
    } else {
      MappedSnoc(mappings, a[1..], x);
      assert (a + [x])[1..] == a[1..] + [x];
      assert (a + [x])[0] == a[0];
    }
  }

  /** The volume and the mount the hook adds for the mapped option `e`. */
  ghost predicate DescribesEntry(vol: map<string, Json>, mount: map<string, Json>, e: OrderedDict.Entry<string, string>,
                                 mappings: map<string, VolumeMapping>, roles: seq<string>, dm: string)
    requires MappingsComplete(mappings)
  {
    && e.key in mappings
    && vol == VolumeEntry(D4ScienceSpawner.GetVolumeName(e.key), mappings[e.key].volume.value)
    && mount == MountEntry(D4ScienceSpawner.GetVolumeName(e.key), mappings[e.key].mountPath.value,
                           !ReadWrite(e.value, roles, dm))
  }

  /** `a` holds, for each entry of `ms` in order, its volume and its mount. */
  ghost predicate Describes(a: Assembly, ms: VolumeOptions, mappings: map<string, VolumeMapping>,
                            roles: seq<string>, dm: string)
    requires MappingsComplete(mappings)
  {
    && |a.volumes| == |ms| && |a.mounts| == |ms|
    && forall i :: 0 <= i < |ms| ==> DescribesEntry(a.volumes[i], a.mounts[i], ms[i], mappings, roles, dm)
  }

  lemma {:induction false} MappedKeys(mappings: map<string, VolumeMapping>, vopts: VolumeOptions)
    ensures forall i :: 0 <= i < |Mapped(mappings, vopts)| ==> Mapped(mappings, vopts)[i].key in mappings
  {
    if vopts != [] {
      MappedKeys(mappings, vopts[1..]);
    }
  }

  /** With complete mappings the hook never raises and adds, for each
      mapped volume option in order, exactly one volume and one mount, both
      named `get_volume_name(name)`; the mount is read-only unless the
      permission is `Read-Write` or the user is a data manager. */
  lemma {:induction false} AssembleComplete(mappings: map<string, VolumeMapping>, roles: seq<string>,
                                            dm: string, vopts: VolumeOptions)
    requires MappingsComplete(mappings)
    ensures Assemble(mappings, roles, dm, vopts).failure.None?
    ensures Describes(Assemble(mappings, roles, dm, vopts), Mapped(mappings, vopts), mappings, roles, dm)
  {
    if vopts != [] {
      var front, x := vopts[..|vopts| - 1], vopts[|vopts| - 1];
      assert vopts == front + [x];
      AssembleComplete(mappings, roles, dm, front);
      MappedSnoc(mappings, front, x);
      AssembleSnoc(mappings, roles, dm, front, x);
      var a' := Assemble(mappings, roles, dm, front);
      if x.key in mappings {
        AttachedComplete(mappings, roles, dm, x);
        var d := Attached(mappings, roles, dm, x);
        assert d.volumes == [d.volumes[0]] && d.mounts == [d.mounts[0]];
        DescribesSnoc(a', Mapped(mappings, front), x, d.volumes[0], d.mounts[0], mappings, roles, dm);
      } else {
        assert Attached(mappings, roles, dm, x) == Assembly([], [], None);
        AppendEmpty(a'.volumes);
        AppendEmpty(a'.mounts);
        assert Mapped(mappings, front) + [] == Mapped(mappings, front);
      }
    }
  }

  /** A mapped option with a complete mapping contributes one volume
      and one mount and does not raise. */
  lemma AttachedComplete(mappings: map<string, VolumeMapping>, roles: seq<string>, dm: string,
                         x: OrderedDict.Entry<string, string>)
    requires MappingsComplete(mappings) && x.key in mappings
    ensures var d := Attached(mappings, roles, dm, x);
      && d.failure.None? && |d.volumes| == 1 && |d.mounts| == 1
      && DescribesEntry(d.volumes[0], d.mounts[0], x, mappings, roles, dm)
  {
  }

  lemma DescribesSnoc(a: Assembly, ms: VolumeOptions, x: OrderedDict.Entry<string, string>,
                      vol: map<string, Json>, mount: map<string, Json>,
                      mappings: map<string, VolumeMapping>, roles: seq<string>, dm: string)
    requires MappingsComplete(mappings)
    ensures Describes(a, ms, mappings, roles, dm) && DescribesEntry(vol, mount, x, mappings, roles, dm) ==>
      Describes(Assembly(a.volumes + [vol], a.mounts + [mount], None), ms + [x], mappings, roles, dm)
  {
    if Describes(a, ms, mappings, roles, dm) && DescribesEntry(vol, mount, x, mappings, roles, dm) {
      var b := Assembly(a.volumes + [vol], a.mounts + [mount], None);
      var ms' := ms + [x];
      forall i | 0 <= i < |ms'|
        ensures DescribesEntry(b.volumes[i], b.mounts[i], ms'[i], mappings, roles, dm)
      {
        IndexAppend(a.volumes, vol, i);
        IndexAppend(a.mounts, mount, i);
        IndexAppend(ms, x, i);
      }
    }
  }

  lemma {:induction false} MappedMembers(mappings: map<string, VolumeMapping>, vopts: VolumeOptions,
                                         e: OrderedDict.Entry<string, string>)
    ensures e in Mapped(mappings, vopts) <==> e in vopts && e.key in mappings
  {
    if vopts != [] {
      MappedMembers(mappings, vopts[1..], e);
      assert vopts == [vopts[0]] + vopts[1..];
    }
  }

  // ---------------------------------------------------------------------
  // Workspace and arguments

  /** The workspace sidecar container for `token`. */
  function Sidecar(token: string, image: string, securityContext: map<string, Json>): map<string, Json> {
    map[
      "name" := JStr("workspace-sidecar"),
      "image" := JStr(image),
      "securityContext" := JObj(securityContext),
      "env" := JList([
        JObj(map["name" := JStr("MNTPATH"), "value" := JStr("/workspace")]),
        JObj(map["name" := JStr("D4SCIENCE_TOKEN"), "value" := JStr(token)])]),
      "volumeMounts" := JList([
        JObj(map["mountPath" := JStr("/workspace:shared"), "name" := JStr("workspace")])]),
      "lifecycle" := JObj(map["preStop" := JObj(map["exec" := JObj(map[
        "command" := JList([JStr("fusermount"), JStr("-uz"), JStr("/workspace")])])])])]
  }

  /** The notebook's default URL: `/rstudio` for a server whose name
      mentions RStudio in any letter case. */
  function NotebookUrl(spawnerName: string, defaultUrl: string): string {
    if Contains(Lower(spawnerName), "rstudio") then "/rstudio" else defaultUrl
  }

  lemma LowerIdempotent(s: string)
    ensures Lower(Lower(s)) == Lower(s)
  {
    assert forall i :: 0 <= i < |s| ==> LowerChar(LowerChar(s[i])) == LowerChar(s[i]);
  }

  /** The URL choice does not depend on letter case. */
  lemma NotebookUrlIgnoresCase(spawnerName: string, defaultUrl: string)
    ensures NotebookUrl(Lower(spawnerName), defaultUrl) == NotebookUrl(spawnerName, defaultUrl)
  {
    LowerIdempotent(spawnerName);
  }

  class D4ScienceSpawner {
    const config: Config
    /** The server name (empty for the default server) and the host's default URL. */
    const name: string
    const defaultUrl: string
    /** The volumes and mounts configured before any hook ran. */
    const origVolumes: seq<map<string, Json>>
    const origVolumeMounts: seq<map<string, Json>>

    var image: string
    var allowedProfiles: seq<string>
    var serverOptions: seq<TaggedOption>
    var volumes: seq<map<string, Json>>
    var volumeMounts: seq<map<string, Json>>
    var environment: map<string, string>
    var namespace: string
    var extraLabels: map<string, string>
    var extraAnnotations: map<string, string>
    var extraContainers: seq<map<string, Json>>
    var containerSecurityContext: Option<map<string, Json>>

    /** `__init__`: empty permissions and options, the configured volumes
        remembered, and the image moved to the override repository if one
        is configured. */
    constructor (config: Config, name: string, defaultUrl: string, image: string, namespace: string,
                 volumes: seq<map<string, Json>>, volumeMounts: seq<map<string, Json>>)
      ensures this.config == config && this.name == name && this.defaultUrl == defaultUrl
      ensures this.namespace == namespace
      ensures allowedProfiles == [] && serverOptions == []
      ensures origVolumes == volumes && origVolumeMounts == volumeMounts
      ensures this.volumes == volumes && this.volumeMounts == volumeMounts
      ensures this.image == ImageFor(config.imageRepoOverride, image)
      ensures environment == map[] && extraLabels == map[] && extraAnnotations == map[]
      ensures extraContainers == [] && containerSecurityContext == None
    {
      this.config := config;
      this.name := name;
      this.defaultUrl := defaultUrl;
      this.namespace := namespace;
      allowedProfiles := [];
      serverOptions := [];
      origVolumes := volumes;
      origVolumeMounts := volumeMounts;
      this.volumes := volumes;
      this.volumeMounts := volumeMounts;
      this.image := ImageFor(config.imageRepoOverride, image);
      environment := map[];
      extraLabels := map[];
      extraAnnotations := map[];
      extraContainers := [];
      containerSecurityContext := None;
    }

    /** What `get_volume_name` makes of one character of the stripped name. */
    static function VolumeChar(c: char): char {
      if c == ' ' then '-' else LowerChar(c)
    }

    /** Only a space or a dash becomes a dash, and a character that is
        neither upper-case nor a space is left alone. */
    static lemma VolumeCharDash(c: char)
      ensures VolumeChar(c) == '-' <==> c in " -"
      ensures !IsUpperAscii(c) && c != ' ' ==> VolumeChar(c) == c
    {
    }

    /** `get_volume_name`: stripped, lower-cased, spaces turned into dashes.
        Position for position, a dash marks a space or a dash of the stripped
        name, every other character is the stripped name's one lower-cased,
        and any character that is neither upper-case nor a space is kept. */
    static function GetVolumeName(name: string): (r: string)
      ensures |r| == |Strip(name)|
      ensures forall i :: 0 <= i < |r| ==> (r[i] == '-' <==> Strip(name)[i] in " -")
      ensures forall i :: 0 <= i < |r| && !IsUpperAscii(Strip(name)[i]) && Strip(name)[i] != ' '
                          ==> r[i] == Strip(name)[i]
      ensures forall i :: 0 <= i < |r| && Strip(name)[i] != ' ' ==> r[i] == LowerChar(Strip(name)[i])
    {
      var t := Strip(name);
      var r := DashSpaces(Lower(t));
      forall i | 0 <= i < |r|
        ensures r[i] == VolumeChar(t[i])
        ensures r[i] == '-' <==> t[i] in " -"
        ensures !IsUpperAscii(t[i]) && t[i] != ' ' ==> r[i] == t[i]
      {
        VolumeCharDash(t[i]);
      }
      r
    }

    /** `get_args`: the fixed notebook arguments, both default-URL flags
        carrying the URL choice, followed by the host's own arguments. */
    function GetArgs(superArgs: seq<string>): (args: seq<string>)
      reads this
      ensures |args| == 6 + |superArgs| && args[6..] == superArgs
      ensures args[4] == "--SingleUserNotebookApp.default_url=" + NotebookUrl(name, defaultUrl)
      ensures args[5] == "--ServerApp.default_url=" + NotebookUrl(name, defaultUrl)
    {
      var url := NotebookUrl(name, defaultUrl);
      [ "--FileCheckpoints.checkpoint_dir='/home/jovyan/.notebookCheckpoints'",
        "--FileContentsManager.use_atomic_writing=False",
        "--ResourceUseDisplay.track_cpu_percent=True",
        "--NotebookApp.iopub_data_rate_limit=100000000",
        "--SingleUserNotebookApp.default_url=" + url,
        "--ServerApp.default_url=" + url ] + superArgs
    }

    /** `build_resource_options(roles, resources)`. */
    method BuildResourceOptions(roles: seq<string>, doc: Document) returns (split: Split)
      ensures split == SplitCatalog(roles, config.serverOptionsNames, doc)
    {
      var names := config.serverOptionsNames;
      var kept: seq<TaggedOption> := [];
      var volumeOptions: VolumeOptions := [];
      var rs: seq<Resource> := [];
      if doc.genericResources.Some? && doc.genericResources.value.resource.Some? {
        match doc.genericResources.value.resource.value
        case One(r) => rs := [r];
        case Many(list) => rs := list;
      }
      assert rs == ResourceList(doc);
      var i := 0;
      while i < |rs|
        invariant 0 <= i <= |rs|
        invariant Run(roles, names, rs[..i]) == Progress(Split(kept, volumeOptions), false)
      {
        assert rs[..i + 1][..i] == rs[..i];
        var body := BodyOf(rs[i]);
        if body.serverOption.Some? {
          var role := body.serverOption.value.role.GetOr("");
          if role != "" && role !in roles {
            i := i + 1;
            continue;
          }
          var name := NameOf(rs[i]);
          if name in names {
            kept := kept + [TaggedOption(body.serverOption.value, name)];
          }
        } else if body.volumeOption.Some? {
          var vo := body.volumeOption.value;
          if vo.name.None? || vo.permission.None? {
            // the KeyError handler around the loop
            RunStopsAt(roles, names, rs[..i], rs[i], rs[i + 1..]);
            SplitAround(rs, i);
            break;
          }
          volumeOptions := OrderedDict.Put(volumeOptions, vo.name.value, vo.permission.value);
        }
        i := i + 1;
      }
      if i == |rs| { assert rs[..i] == rs; }
      split := Split(kept, volumeOptions);
    }

    /** `auth_state_hook`: records the granted resource names and the kept
        server options, and rebuilds the volumes and mounts from the
        configured ones plus the mapped volume options. */
    method AuthStateHook(authState: Option<AuthState>) returns (r: Result<()>)
      modifies this`allowedProfiles, this`serverOptions, this`volumes, this`volumeMounts
      ensures !Present(authState) ==>
        && r == Ok(())
        && allowedProfiles == old(allowedProfiles) && serverOptions == old(serverOptions)
        && volumes == old(volumes) && volumeMounts == old(volumeMounts)
      ensures Present(authState) && ResourceNames(authState.value.permissions.GetOr([])).None? ==>
        && r == Err(MissingKey("rsname"))
        && allowedProfiles == old(allowedProfiles) && serverOptions == old(serverOptions)
        && volumes == old(volumes) && volumeMounts == old(volumeMounts)
      ensures Present(authState) && ResourceNames(authState.value.permissions.GetOr([])).Some? ==>
        var a := authState.value;
        var roles := a.roles.GetOr([]);
        var split := SplitCatalog(roles, config.serverOptionsNames, a.resources.GetOr(Document(None)));
        var asm := Assemble(config.volumeMappings, roles, config.dataManagerRole, split.volumeOptions);
        && allowedProfiles == ResourceNames(a.permissions.GetOr([])).value
        && serverOptions == split.serverOptions
        && volumes == origVolumes + asm.volumes
        && volumeMounts == origVolumeMounts + asm.mounts
        && r == (if asm.failure.Some? then Err(asm.failure.value) else Ok(()))
    {
      if !Present(authState) {
        return Ok(());
      }
      var a := authState.value;
      var roles := a.roles.GetOr([]);
      var names := ResourceNames(a.permissions.GetOr([]));
      if names.None? {
        return Err(MissingKey("rsname"));
      }
      allowedProfiles := names.value;
      var split := BuildResourceOptions(roles, a.resources.GetOr(Document(None)));
      serverOptions := split.serverOptions;
      var vopts := split.volumeOptions;
      var mappings := config.volumeMappings;
      var dm := config.dataManagerRole;
      volumes := origVolumes;
      volumeMounts := origVolumeMounts;
      var failure := AttachVolumes(roles, split.volumeOptions);
      r := if failure.Some? then Err(failure.value) else Ok(());
    }

    /** The loop of `auth_state_hook` over the volume options: appends the
        volume and the mount of each mapped option, stopping at the first
        mapping without `volume` or `mount_path`. */
    method AttachVolumes(roles: seq<string>, vopts: VolumeOptions) returns (failure: Option<Error>)
      modifies this`volumes, this`volumeMounts
      ensures var asm := Assemble(config.volumeMappings, roles, config.dataManagerRole, vopts);
        && volumes == old(volumes) + asm.volumes
        && volumeMounts == old(volumeMounts) + asm.mounts
        && failure == asm.failure
    {
      var mappings := config.volumeMappings;
      var dm := config.dataManagerRole;
      ghost var acc := Assembly([], [], None);
      var i := 0;
      while i < |vopts|
        invariant 0 <= i <= |vopts|
        invariant acc == Assemble(mappings, roles, dm, vopts[..i])
        invariant acc.failure.None?
        invariant volumes == old(volumes) + acc.volumes
        invariant volumeMounts == old(volumeMounts) + acc.mounts
      {
        AssembleStep(mappings, roles, dm, vopts, i);
        ghost var d := Attached(mappings, roles, dm, vopts[i]);
        AppendAssoc(old(volumes), acc.volumes, d.volumes);
        AppendAssoc(old(volumeMounts), acc.mounts, d.mounts);
        failure := AttachOne(roles, vopts[i]);
        acc := Assembly(acc.volumes + d.volumes, acc.mounts + d.mounts, d.failure);
        if failure.Some? {
          return;
        }
        i := i + 1;
      }
      AssembleStep(mappings, roles, dm, vopts, i);
      failure := None;
    }

    /** One iteration: appends the volume and the mount of a mapped option. */
    method AttachOne(roles: seq<string>, e: OrderedDict.Entry<string, string>) returns (failure: Option<Error>)
      modifies this`volumes, this`volumeMounts
      ensures volumes == old(volumes) + Attached(config.volumeMappings, roles, config.dataManagerRole, e).volumes
      ensures volumeMounts == old(volumeMounts) + Attached(config.volumeMappings, roles, config.dataManagerRole, e).mounts
      ensures failure == Attached(config.volumeMappings, roles, config.dataManagerRole, e).failure
    {
      ghost var d := Attached(config.volumeMappings, roles, config.dataManagerRole, e);
      if e.key !in config.volumeMappings {
        assert d == Assembly([], [], None);
        AppendEmpty(volumes); AppendEmpty(volumeMounts);
        return None;
      }
      var volName := GetVolumeName(e.key);
      var m := config.volumeMappings[e.key];
      if m.volume.None? {
        assert d == Assembly([], [], Some(MissingKey("volume")));
        AppendEmpty(volumes); AppendEmpty(volumeMounts);
        return Some(MissingKey("volume"));
      }
      var vol := VolumeEntry(volName, m.volume.value);
      assert d.volumes == [vol];
      volumes := volumes + [vol];
      var readWrite := e.value == "Read-Write" || config.dataManagerRole in roles;
      if m.mountPath.None? {
        assert d == Assembly([vol], [], Some(MissingKey("mount_path")));
        AppendEmpty(volumeMounts);
        return Some(MissingKey("mount_path"));
      }
      var mount := MountEntry(volName, m.mountPath.value, !readWrite);
      assert d == Assembly([vol], [mount], None);
      volumeMounts := volumeMounts + [mount];
      failure := None;
    }

    /** `profile_list`. */
    method ProfileList() returns (r: Result<seq<Profile>>)
      ensures r == Profiles.ProfileList(allowedProfiles, serverOptions,
                     SelectedOptionName(name, config.serverNamePrefix, config.defaultServerOptionName),
                     config.imageRepoOverride, config.gpuOverride, config.extraProfiles)
    {
      var repo, gpu := config.imageRepoOverride, config.gpuOverride;
      var selected := SelectedOptionName(name, config.serverNamePrefix, config.defaultServerOptionName);
      var profiles: seq<Profile> := [];
      ghost var cat: seq<Profile> := [];
      if allowedProfiles != [] && serverOptions != [] {
        var opts := serverOptions;
        var i := 0;
        while i < |opts|
          invariant 0 <= i <= |opts|
          invariant CatalogProfiles(opts[..i], allowedProfiles, selected, repo, gpu) == Ok(cat)
          invariant profiles == Staged(cat)
        {
          CatalogProfilesSnoc(opts[..i], opts[i], allowedProfiles, selected, repo, gpu);
          assert opts[..i + 1] == opts[..i] + [opts[i]];
          var p := opts[i];
          var authId := p.option.authId.GetOr("");
          if authId !in allowedProfiles || p.serverOptionName != selected {
            i := i + 1;
            continue;
          }
          var profile := ProfileOf(p.option, repo, gpu);
          if profile.Err? {
            CatalogProfilesAfterErr(opts[..i + 1], opts[i + 1..], allowedProfiles, selected, repo, gpu);
            SplitAt(opts, i + 1);
            return Err(profile.error);
          }
          if profile.value.isDefault {
            profiles := [profile.value] + profiles;
          } else {
            profiles := profiles + [profile.value];
          }
          assert (cat + [profile.value])[..|cat|] == cat;
          cat := cat + [profile.value];
          i := i + 1;
        }
        assert opts[..i] == opts;
      }
      if config.extraProfiles != [] {
        profiles := profiles + config.extraProfiles;
      } else {
        assert profiles == profiles + config.extraProfiles;
      }
      if !(allowedProfiles != [] && serverOptions != []) {
        assert profiles == config.extraProfiles;
      }
      r := Ok(Sorting.SortBy(profiles, DisplayName));
    }

    /** `_configure_workspace`: with a token in the environment, either a
        sidecar carrying it is added or the workspace security context is
        put on the notebook container, never both. */
    method ConfigureWorkspace()
      modifies this`extraContainers, this`containerSecurityContext
      ensures var token := EnvGet(environment, "D4SCIENCE_TOKEN");
        && (token == "" || !config.useSidecar ==> extraContainers == old(extraContainers))
        && (token != "" && config.useSidecar ==>
              extraContainers == old(extraContainers) + [Sidecar(token, config.sidecarImage, config.workspaceSecurityContext)])
        && (token == "" || config.useSidecar ==> containerSecurityContext == old(containerSecurityContext))
        && (token != "" && !config.useSidecar ==>
              containerSecurityContext == Some(config.workspaceSecurityContext))
    {
      var token := EnvGet(environment, "D4SCIENCE_TOKEN");
      if token == "" {
        return;
      }
      if config.useSidecar {
        extraContainers := extraContainers + [Sidecar(token, config.sidecarImage, config.workspaceSecurityContext)];
      } else {
        containerSecurityContext := Some(config.workspaceSecurityContext);
      }
    }

    /** `pre_spawn_hook`: annotates the pod with the context, exports the
        VRE name (the text after the context's last slash), drops any
        previous extra containers and configures workspace access.  A
        context without a slash raises after the annotation is set. */
    method PreSpawnHook() returns (r: Result<()>)
      modifies this`extraAnnotations, this`environment, this`extraContainers, this`containerSecurityContext
      ensures var context := EnvGet(old(environment), "D4SCIENCE_CONTEXT");
        var token := EnvGet(old(environment), "D4SCIENCE_TOKEN");
        && extraAnnotations == (if context != "" then old(extraAnnotations)["d4science_context" := context]
                                else old(extraAnnotations))
        && (r.Err? <==> context != "" && '/' !in context)
        && (r.Err? ==>
              && r.error == NoSlash && environment == old(environment)
              && extraContainers == old(extraContainers)
              && containerSecurityContext == old(containerSecurityContext))
        && (r.Ok? ==>
              && environment == (if context != "" then old(environment)["VRE" := LastSegment(context)]
                                 else old(environment))
              && extraContainers == (if token != "" && config.useSidecar
                                     then [Sidecar(token, config.sidecarImage, config.workspaceSecurityContext)]
                                     else [])
              && containerSecurityContext == (if token != "" && !config.useSidecar
                                              then Some(config.workspaceSecurityContext)
                                              else old(containerSecurityContext)))
    {
      var context := EnvGet(environment, "D4SCIENCE_CONTEXT");
      if context != "" {
        extraAnnotations := extraAnnotations["d4science_context" := context];
        var slash := RIndexSlash(context);
        if slash.None? {
          return Err(NoSlash);
        }
        RIndexSlashLastSegment(context);
        environment := environment["VRE" := context[slash.value + 1..]];
      }
      extraContainers := [];
      ConfigureWorkspace();
      r := Ok(());
    }
  }

  // ---------------------------------------------------------------------
  // Properties

  lemma {:induction false} CatalogProfilesSnoc(a: seq<TaggedOption>, x: TaggedOption, allowed: seq<string>,
                                               selected: string, repo: string, gpu: map<string, Json>)
    requires CatalogProfiles(a, allowed, selected, repo, gpu).Ok?
    ensures var c := CatalogProfiles(a, allowed, selected, repo, gpu).value;
      CatalogProfiles(a + [x], allowed, selected, repo, gpu)
      == if !Admitted(x, allowed, selected) then Ok(c)
         else match ProfileOf(x.option, repo, gpu)
              case Err(e) => Err(e)
              case Ok(p) => Ok(c + [p])
  {
    if a == [] {
      assert a + [x] == [x];
      assert [x][1..] == [];
      if Admitted(x, allowed, selected) && ProfileOf(x.option, repo, gpu).Ok? {
        var q := ProfileOf(x.option, repo, gpu).value;
        assert [q] + [] == [] + [q];
      }
    } else {
      assert (a + [x])[1..] == a[1..] + [x];
      assert (a + [x])[0] == a[0];
      if Admitted(a[0], allowed, selected) {
        var p := ProfileOf(a[0].option, repo, gpu).value;
        var c' := CatalogProfiles(a[1..], allowed, selected, repo, gpu).value;
        CatalogProfilesSnoc(a[1..], x, allowed, selected, repo, gpu);
        if Admitted(x, allowed, selected) && ProfileOf(x.option, repo, gpu).Ok? {
          var q := ProfileOf(x.option, repo, gpu).value;
          assert [p] + (c' + [q]) == ([p] + c') + [q];
        }
      } else {
        CatalogProfilesSnoc(a[1..], x, allowed, selected, repo, gpu);
      }
    }
  }

  lemma {:induction false} CatalogProfilesAfterErr(a: seq<TaggedOption>, b: seq<TaggedOption>, allowed: seq<string>,
                                                   selected: string, repo: string, gpu: map<string, Json>)
    requires CatalogProfiles(a, allowed, selected, repo, gpu).Err?
    ensures CatalogProfiles(a + b, allowed, selected, repo, gpu) == CatalogProfiles(a, allowed, selected, repo, gpu)
  {
    if a != [] {
      assert (a + b)[1..] == a[1..] + b;
      assert (a + b)[0] == a[0];
      if CatalogProfiles(a[1..], allowed, selected, repo, gpu).Err? {
        CatalogProfilesAfterErr(a[1..], b, allowed, selected, repo, gpu);
      }
    }
  }

  /** `get_volume_name` is idempotent: a name it produced is its own volume name. */
  lemma VolumeNameIdempotent(name: string)
    ensures D4ScienceSpawner.GetVolumeName(D4ScienceSpawner.GetVolumeName(name))
         == D4ScienceSpawner.GetVolumeName(name)
  {
    var t := Strip(name);
    var u := Lower(t);
    var v := DashSpaces(u);
    assert v == [] || (!IsSpace(v[0]) && !IsSpace(v[|v| - 1]));
    assert TrimLeft(v) == v;
    assert TrimRight(v) == v;
    assert Lower(v) == v;
    assert DashSpaces(v) == v;
  }

  /** A volume name has no space and no upper-case ASCII letter. */
  lemma VolumeNameShape(name: string)
    ensures var v := D4ScienceSpawner.GetVolumeName(name);
      ' ' !in v && forall i :: 0 <= i < |v| ==> !IsUpperAscii(v[i])
  {
    var u := Lower(Strip(name));
    var v := DashSpaces(u);
    forall i | 0 <= i < |v|
      ensures v[i] != ' ' && !IsUpperAscii(v[i])
    {
      assert !IsUpperAscii(u[i]);
    }
  }

  /** A catalog holding one `ServerOption` resource. */
  function SingleOptionDoc(so: ServerOption, many: bool): Document {
    var r := Resource(Some(ResourceProfile(Some("ServerOption"), Some(Body(Some(so), None)))));
    Document(Some(GenericResources(Some(if many then Many([r]) else One(r)))))
  }

  /** tests/test_spawner.py, `test_build_options_role`: a server option with
      role `foo-role` is kept for a user holding that role and dropped for
      a user with no roles; without `@role` it is kept for no roles. */
  lemma TestBuildOptionsRole(so: ServerOption)
    requires so.role == Some("foo-role")
    ensures SplitCatalog(["foo-role"], DefaultServerOptionsNames, SingleOptionDoc(so, true))
         == Split([TaggedOption(so, "ServerOption")], [])
    ensures SplitCatalog([], DefaultServerOptionsNames, SingleOptionDoc(so, true)) == Split([], [])
    ensures SplitCatalog([], DefaultServerOptionsNames, SingleOptionDoc(so.(role := None), true))
         == Split([TaggedOption(so.(role := None), "ServerOption")], [])
  {
    var free := so.(role := None);
    var r := Resource(Some(ResourceProfile(Some("ServerOption"), Some(Body(Some(so), None)))));
    var r' := Resource(Some(ResourceProfile(Some("ServerOption"), Some(Body(Some(free), None)))));
    assert ResourceList(SingleOptionDoc(so, true)) == [r];
    assert ResourceList(SingleOptionDoc(free, true)) == [r'];
    assert [r][..0] == [] && [r'][..0] == [];
    assert "ServerOption" in DefaultServerOptionsNames;
    assert Run(["foo-role"], DefaultServerOptionsNames, [r]) == Progress(Split([TaggedOption(so, "ServerOption")], []), false);
    assert Run([], DefaultServerOptionsNames, [r]) == Progress(Split([], []), false);
    assert Run([], DefaultServerOptionsNames, [r']) == Progress(Split([TaggedOption(free, "ServerOption")], []), false);
  }

  /** A user holding `foo-role` and granted resource `x` gets exactly the
      one profile of the option with `AuthId` `x`; granted nothing, the
      catalog contributes no profile. */
  lemma EndToEnd()
    ensures var so := ServerOption(Some("x"), Some(Info(Some("X"), Some("d"))), None, None, None, None, Some("foo-role"));
      var opts := SplitCatalog(["foo-role"], DefaultServerOptionsNames, SingleOptionDoc(so, false)).serverOptions;
      && Profiles.ProfileList(["x"], opts, DefaultServerOptionName, "", map[], [])
         == Ok([Profile("X", "d", "x", map[], false)])
      && Profiles.ProfileList([], opts, DefaultServerOptionName, "", map[], []) == Ok([])
  {
    var so := ServerOption(Some("x"), Some(Info(Some("X"), Some("d"))), None, None, None, None, Some("foo-role"));
    var r := Resource(Some(ResourceProfile(Some("ServerOption"), Some(Body(Some(so), None)))));
    assert ResourceList(SingleOptionDoc(so, false)) == [r];
    assert [r][..0] == [];
    var t := TaggedOption(so, "ServerOption");
    assert "ServerOption" in DefaultServerOptionsNames;
    assert Run(["foo-role"], DefaultServerOptionsNames, [r]) == Progress(Split([t], []), false);
    assert SplitCatalog(["foo-role"], DefaultServerOptionsNames, SingleOptionDoc(so, false)).serverOptions == [t];
    var p := Profile("X", "d", "x", map[], false);
    assert OverrideOf(so, "", map[]) == map[];
    assert ProfileOf(so, "", map[]) == Ok(p);
    assert [t][1..] == [] && Admitted(t, ["x"], DefaultServerOptionName);
    assert [p] + [] == [p];
    assert CatalogProfiles([t], ["x"], DefaultServerOptionName, "", map[]) == Ok([p]);
    assert Staged([p]) == [p] by {
      assert [p][..0] == [];
    }
    assert [p] + [] == [p];
  }

  /** tests/test_spawner.py, `test_get_args`: the default URL for an
      unnamed server, `/rstudio` for a server named `RStudio`. */
  lemma TestGetArgs()
    ensures NotebookUrl("", "/foo") == "/foo"
    ensures NotebookUrl("RStudio", "/foo") == "/rstudio"
  {
    assert Lower("RStudio") == "rstudio";
    assert IsPrefix("rstudio", "rstudio");
  }
}
