/** The builder Pod: newBuilderPod in internal/controller/job.go. */
module BuilderPod {
  import opened Wrappers
  import opened OSArtifactSpec

  datatype UKIOutput = UKIISO | UKIContainer | UKIEFI

  /** What a container of the builder Pod is for. */
  datatype Role =
    | Import(index: nat)
    | PullBaseImage
    | BuildahBuild
    | ImageExtractor
    | Bundle(index: nat, image: string)
    | OSRelease
    | KairosRelease
    | BuildUKI(output: UKIOutput)
    | BuildISO
    | Netboot
    | CloudImage
    | AzureImage
    | GCEImage

  /** Containers hold their mounts by reference: the build containers share one slice. */
  datatype Container = Container(role: Role, mounts: array<Mount>)

  datatype Pod = Pod(volumes: seq<Volume>, inits: seq<Container>, mains: seq<Container>)

  const ROOTFS := "rootfs"

  function If<T>(b: bool, s: seq<T>): seq<T> {
    if b then s else []
  }

  /** builderVolumeMounts */
  function BuilderVolumeMounts(a: OSArtifact): seq<Mount> {
    var ms := [Mount("artifacts", "/artifacts", ""), Mount(ROOTFS, "/rootfs", "")];
    match a.artifacts
    case None => ms
    case Some(s) =>
      ms +
      If(s.grubConfig != "", [Mount("config", "/iso/iso-overlay/boot/grub2/grub.cfg", "grub.cfg")]) +
      If(s.overlayISOVolume != "", [Mount(s.overlayISOVolume, "/overlay-iso", "")]) +
      If(s.overlayRootfsVolume != "", [Mount(s.overlayRootfsVolume, "/overlay-rootfs", "")]) +
      If(s.uki.Some? && s.uki.value.keysVolume != "", [Mount(UKIKeys(s), "/uki-keys", "")]) +
      If(s.cloudConfigRef.Some?, [Mount("cloudconfig", "/cloud-config.yaml", CloudConfigKey(s))])
  }

  function UKIKeys(s: ArtifactSpec): string {
    if s.uki.Some? then s.uki.value.keysVolume else ""
  }

  function CloudConfigKey(s: ArtifactSpec): string {
    if s.cloudConfigRef.Some? then s.cloudConfigRef.value.key else ""
  }

  function BuildContext(img: ImageSpec): string {
    if img.ociSpec.Some? then img.ociSpec.value.buildContextVolume else ""
  }

  /** The mounts of the container that pulls image.ref. */
  function PullMounts(img: ImageSpec): seq<Mount> {
    [Mount(ROOTFS, "/rootfs", ""), Mount("artifacts", "/artifacts", "")] +
    If(img.credentials.Some?, [Mount("image-credentials", "/root/.docker", "")]) +
    If(img.caCertificatesVolume != "", [Mount(img.caCertificatesVolume, "/etc/ssl/buildah/certs", "")])
  }

  /** The mounts of the container that builds the image. */
  function BuildahMounts(img: ImageSpec): seq<Mount> {
    [Mount("ocispec", "/ocispec", ""), Mount("artifacts", "/artifacts", "")] +
    If(BuildContext(img) != "", [Mount(BuildContext(img), "/workspace", "")]) +
    If(img.storageVolume != "", [Mount(img.storageVolume, "/var/lib/containers", "containers")]) +
    If(img.caCertificatesVolume != "", [Mount(img.caCertificatesVolume, "/etc/ssl/buildah/certs", "")]) +
    If(img.credentials.Some?, [Mount("image-credentials", "/root/.docker", "")])
  }

  /** The mounts an operator-made container asks for, before rootfsVolume is looked at. */
  function MountsFor(a: OSArtifact, role: Role): seq<Mount> {
    match role
    case Import(_) => []
    case PullBaseImage => PullMounts(a.image)
    case BuildahBuild => BuildahMounts(a.image)
    case ImageExtractor => [Mount(ROOTFS, "/rootfs", ""), Mount("artifacts", "/artifacts", "")]
    case Bundle(_, _) => [Mount(ROOTFS, "/rootfs", "")]
    case OSRelease => [Mount("config", "/etc/os-release", "os-release"), Mount(ROOTFS, "/rootfs", "")]
    case KairosRelease => [Mount("config", "/etc/kairos-release", "kairos-release"), Mount(ROOTFS, "/rootfs", "")]
    case _ => BuilderVolumeMounts(a)
  }

  function RootfsVolume(a: OSArtifact): string {
    if a.artifacts.Some? then a.artifacts.value.rootfsVolume else ""
  }

  function Redirect(volume: string, m: Mount): Mount {
    if m.name == ROOTFS then Mount(volume, m.path, "rootfs") else m
  }

  function RedirectAll(volume: string, ms: seq<Mount>): seq<Mount> {
    seq(|ms|, i requires 0 <= i < |ms| => Redirect(volume, ms[i]))
  }

  /** The mounts a container ends up with. */
  function FinalMounts(a: OSArtifact, ms: seq<Mount>): seq<Mount> {
    if RootfsVolume(a) != "" then RedirectAll(RootfsVolume(a), ms) else ms
  }

  function FindVolume(vs: seq<Volume>, name: string): Option<Volume> {
    if vs == [] then None
    else if vs[0].name == name then Some(vs[0])
    else FindVolume(vs[1..], name)
  }

  /** builderPodBaseVolumes and the append functions after it. */
  function PodVolumes(a: OSArtifact): seq<Volume> {
    var artifactsVolume :=
      if a.artifacts.Some? && a.artifacts.value.volume != "" then
        match FindVolume(a.volumes, a.artifacts.value.volume)
        case Some(v) => Volume("artifacts", v.source)
        case None => Volume("", EmptyDir)
      else Volume("artifacts", ArtifactsClaim);
    OwnList(a, artifactsVolume) + a.volumes
  }

  /** The operator's volumes. */
  function OwnList(a: OSArtifact, artifacts: Volume): seq<Volume> {
    [artifacts] +
    If(RootfsVolume(a) == "", [Volume(ROOTFS, EmptyDir)]) +
    [Volume("config", ArtifactConfigMap)] +
    If(HasRef(a.image), [Volume("ocispec", SecretSource(RefName(a.image)))]) +
    If(a.image.credentials.Some?, [Volume("image-credentials", SecretSource(CredentialsName(a.image)))]) +
    If(a.artifacts.Some? && a.artifacts.value.cloudConfigRef.Some?, [Volume("cloudconfig", SecretSource(CloudConfigName(a)))])
  }

  function RefName(img: ImageSpec): string {
    if HasRef(img) then img.ociSpec.value.ref.value.name else ""
  }

  function CredentialsName(img: ImageSpec): string {
    if img.credentials.Some? then img.credentials.value.name else ""
  }

  function CloudConfigName(a: OSArtifact): string {
    if a.artifacts.Some? && a.artifacts.value.cloudConfigRef.Some? then a.artifacts.value.cloudConfigRef.value.name else ""
  }

  function Imports(n: nat): seq<Role> {
    seq(n, i requires 0 <= i < n => Import(i))
  }

  function Bundles(images: seq<string>): seq<Role> {
    seq(|images|, i requires 0 <= i < |images| => Bundle(i, images[i]))
  }

  function UKIBuilds(s: ArtifactSpec): seq<Role> {
    match s.uki
    case None => []
    case Some(u) => If(u.iso, [BuildUKI(UKIISO)]) + If(u.container, [BuildUKI(UKIContainer)]) + If(u.efi, [BuildUKI(UKIEFI)])
  }

  /** What runs one after the other once the image is there. */
  function SequentialSteps(a: OSArtifact, s: ArtifactSpec): seq<Role> {
    If(HasRef(a.image), [ImageExtractor]) + Bundles(s.bundles) + Releases(s) + UKIBuilds(s) + ISOBuilds(s)
  }

  function Releases(s: ArtifactSpec): seq<Role> {
    If(s.osRelease != "", [OSRelease]) + If(s.kairosRelease != "", [KairosRelease])
  }

  function ISOBuilds(s: ArtifactSpec): seq<Role> {
    If(s.iso || s.netboot, [BuildISO]) + If(s.netboot, [Netboot])
  }

  /** What may run side by side at the end. */
  function ParallelSteps(s: ArtifactSpec): seq<Role> {
    If(s.cloudImage, [CloudImage]) + If(s.azureImage, [AzureImage]) + If(s.gceImage, [GCEImage])
  }

  function Buildable(a: OSArtifact): bool {
    a.image.ref != "" || HasRef(a.image)
  }

  function InitPlan(a: OSArtifact): seq<Role> {
    Imports(|a.importers|) + [if a.image.ref != "" then PullBaseImage else BuildahBuild] +
    if a.artifacts.Some? then SequentialSteps(a, a.artifacts.value) else []
  }

  function MainPlan(a: OSArtifact): seq<Role> {
    if a.artifacts.Some? then ParallelSteps(a.artifacts.value) else []
  }

  /** The whole sequence: importers, stage 1, one builder for each requested artifact. */
  function Plan(a: OSArtifact): seq<Role> {
    InitPlan(a) + MainPlan(a)
  }

  function Roles(cs: seq<Container>): seq<Role> {
    seq(|cs|, i requires 0 <= i < |cs| => cs[i].role)
  }

  /** The mounts the container starts from: an importer's come from the spec. */
  ghost function StartMounts(a: OSArtifact, role: Role): seq<Mount>
    reads set i | i in a.importers :: i.mounts
  {
    if role.Import? && role.index < |a.importers| then a.importers[role.index].mounts[..] else MountsFor(a, role)
  }

  ghost predicate AllMade(a: OSArtifact, cs: seq<Container>)
    reads set i | i in a.importers :: i.mounts, set c | c in cs :: c.mounts
  {
    forall c | c in cs :: c.mounts[..] == StartMounts(a, c.role)
  }

  /** A volume the operator adds for a valid spec, by what the spec says; `v` is this volume with its source. */
  ghost predicate OwnVolume(a: OSArtifact, v: Volume) {
    match v.name
    case "artifacts" =>
      if a.artifacts.Some? && a.artifacts.value.volume != ""
      then exists u | u in a.volumes :: u.name == a.artifacts.value.volume && u.source == v.source
      else v.source == ArtifactsClaim
    case "rootfs" => v.source == EmptyDir && (a.artifacts.Some? ==> a.artifacts.value.rootfsVolume == "")
    case "config" => v.source == ArtifactConfigMap
    case "ocispec" =>
      && a.image.ociSpec.Some? && a.image.ociSpec.value.ref.Some?
      && v.source == SecretSource(a.image.ociSpec.value.ref.value.name)
    case "image-credentials" => a.image.credentials.Some? && v.source == SecretSource(a.image.credentials.value.name)
    case "cloudconfig" =>
      && a.artifacts.Some? && a.artifacts.value.cloudConfigRef.Some?
      && v.source == SecretSource(a.artifacts.value.cloudConfigRef.value.name)
    case _ => false
  }

  lemma {:induction false} FoundIsNamed(vs: seq<Volume>, name: string)
    ensures match FindVolume(vs, name)
            case Some(v) => v in vs && v.name == name
            case None => forall v | v in vs :: v.name != name
  {
    if vs != [] {
      FoundIsNamed(vs[1..], name);
      assert vs == [vs[0]] + vs[1..];
    }
  }

  lemma UserVolumeIsOne(a: OSArtifact, u: Volume, v: Volume)
    requires ValidSpec(a) && u in a.volumes && v in a.volumes && u.name == v.name
    ensures u == v
  {
    var i :| 0 <= i < |a.volumes| && a.volumes[i] == u;
    var k :| 0 <= k < |a.volumes| && a.volumes[k] == v;
  }

  lemma ArtifactsVolume(a: OSArtifact, v: Volume)
    requires ValidSpec(a)
    ensures PodVolumes(a)[0] == v <==> v.name == "artifacts" && OwnVolume(a, v)
  {
    if a.artifacts.Some? && a.artifacts.value.volume != "" {
      FoundIsNamed(a.volumes, a.artifacts.value.volume);
      var w :| w in a.volumes && w.name == a.artifacts.value.volume;
      var found := FindVolume(a.volumes, a.artifacts.value.volume);
      forall u | u in a.volumes && u.name == a.artifacts.value.volume ensures u == found.value {
        UserVolumeIsOne(a, u, found.value);
      }
      hide ValidSpec, FindVolume;
    }
  }

  /** The Pod's volumes, each with its source: the user's, unchanged, and those of the operator's that the spec calls for. */
  lemma VolumesMeaning(a: OSArtifact, v: Volume)
    requires ValidSpec(a)
    ensures v in PodVolumes(a) <==> v in a.volumes || OwnVolume(a, v)
  {
    ArtifactsVolume(a, v);
    hide ValidSpec, FindVolume;
    var artifacts := PodVolumes(a)[0];
    OwnListMembers(a, artifacts, v);
    PodVolumesSplit(a);
    hide PodVolumes, OwnList;
    assert v in PodVolumes(a) <==> v in OwnList(a, artifacts) || v in a.volumes;
  }

  lemma VolumesAsAsked(a: OSArtifact)
    requires ValidSpec(a)
    ensures forall v :: v in PodVolumes(a) <==> v in a.volumes || OwnVolume(a, v)
  {
    hide ValidSpec, PodVolumes, OwnVolume;
    forall v ensures v in PodVolumes(a) <==> v in a.volumes || OwnVolume(a, v) { VolumesMeaning(a, v); }
  }

  lemma PodVolumesSplit(a: OSArtifact)
    ensures |PodVolumes(a)| > |a.volumes| && PodVolumes(a) == OwnList(a, PodVolumes(a)[0]) + a.volumes
  {
    hide HasRef, RootfsVolume, RefName, CredentialsName, CloudConfigName;
  }

  lemma IfMember<T>(b: bool, x: T, y: T)
    ensures y in If(b, [x]) <==> b && y == x
  {
  }

  lemma OwnListMembers(a: OSArtifact, artifacts: Volume, v: Volume)
    ensures v in OwnList(a, artifacts) <==> v == artifacts || (v.name != "artifacts" && OwnVolume(a, v))
  {
    IfMember(RootfsVolume(a) == "", Volume(ROOTFS, EmptyDir), v);
    IfMember(HasRef(a.image), Volume("ocispec", SecretSource(RefName(a.image))), v);
    IfMember(a.image.credentials.Some?, Volume("image-credentials", SecretSource(CredentialsName(a.image))), v);
    IfMember(a.artifacts.Some? && a.artifacts.value.cloudConfigRef.Some?,
             Volume("cloudconfig", SecretSource(CloudConfigName(a))), v);
    hide If;
  }

  /** The volume that the spec and the role call for at a path, before rootfsVolume is looked at. */
  function AskedAt(a: OSArtifact, role: Role, path: string): Option<Mount> {
    if role == PullBaseImage || role == BuildahBuild then StageOneAskedAt(a.image, role == BuildahBuild, path)
    else if path == "/rootfs" then Some(Mount("rootfs", path, ""))
    else if role.Bundle? then None
    else if role == OSRelease then if path == "/etc/os-release" then Some(Mount("config", path, "os-release")) else None
    else if role == KairosRelease then
      if path == "/etc/kairos-release" then Some(Mount("config", path, "kairos-release")) else None
    else if path == "/artifacts" then Some(Mount("artifacts", path, ""))
    else if Shares(role) && a.artifacts.Some? then BuilderAskedAt(a.artifacts.value, path)
    else None
  }

  function StageOneAskedAt(img: ImageSpec, builds: bool, path: string): Option<Mount> {
    if path == "/artifacts" then Some(Mount("artifacts", path, ""))
    else if path == "/root/.docker" && img.credentials.Some? then Some(Mount("image-credentials", path, ""))
    else if path == "/etc/ssl/buildah/certs" then Named(img.caCertificatesVolume, path, "")
    else if !builds then if path == "/rootfs" then Some(Mount("rootfs", path, "")) else None
    else if path == "/ocispec" then Some(Mount("ocispec", path, ""))
    else if path == "/workspace" && img.ociSpec.Some? then Named(img.ociSpec.value.buildContextVolume, path, "")
    else if path == "/var/lib/containers" then Named(img.storageVolume, path, "containers")
    else None
  }

  /** What the containers that build artifacts have on top. */
  function BuilderAskedAt(s: ArtifactSpec, path: string): Option<Mount> {
    if path == "/iso/iso-overlay/boot/grub2/grub.cfg" && s.grubConfig != "" then Some(Mount("config", path, "grub.cfg"))
    else if path == "/overlay-iso" then Named(s.overlayISOVolume, path, "")
    else if path == "/overlay-rootfs" then Named(s.overlayRootfsVolume, path, "")
    else if path == "/uki-keys" && s.uki.Some? then Named(s.uki.value.keysVolume, path, "")
    else if path == "/cloud-config.yaml" && s.cloudConfigRef.Some?
    then Some(Mount("cloudconfig", path, s.cloudConfigRef.value.key))
    else None
  }

  function Named(volume: string, path: string, subPath: string): Option<Mount> {
    if volume == "" then None else Some(Mount(volume, path, subPath))
  }

  ghost predicate DistinctPaths(ms: seq<Mount>) {
    forall i, k | 0 <= i < k < |ms| :: ms[i].path != ms[k].path
  }

  /** One more mount, when the spec asks for it. */
  lemma OneMore(ms: seq<Mount>, b: bool, x: Mount)
    requires DistinctPaths(ms) && forall m | m in ms :: m.path != x.path
    ensures DistinctPaths(ms + If(b, [x]))
    ensures forall m :: m in ms + If(b, [x]) <==> m in ms || (b && m == x)
  {
  }

  lemma PullMountsMeaning(img: ImageSpec)
    ensures DistinctPaths(PullMounts(img))
    ensures forall m :: m in PullMounts(img) <==> StageOneAskedAt(img, false, m.path) == Some(m)
  {
    hide If, DistinctPaths;
    var rootfs, artifacts := Mount(ROOTFS, "/rootfs", ""), Mount("artifacts", "/artifacts", "");
    var credentials := Mount("image-credentials", "/root/.docker", "");
    TwoMounts(rootfs, artifacts);
    var ms := [rootfs, artifacts];
    OneMore(ms, img.credentials.Some?, credentials);
    ms := ms + If(img.credentials.Some?, [credentials]);
    OneMore(ms, img.caCertificatesVolume != "", Mount(img.caCertificatesVolume, "/etc/ssl/buildah/certs", ""));
  }

  lemma TwoMounts(x: Mount, y: Mount)
    requires x.path != y.path
    ensures DistinctPaths([x, y])
  {
  }

  lemma BuildahMountsMeaning(img: ImageSpec)
    ensures DistinctPaths(BuildahMounts(img))
    ensures forall m :: m in BuildahMounts(img) <==> StageOneAskedAt(img, true, m.path) == Some(m)
  {
    hide If, DistinctPaths;
    var ocispec, artifacts := Mount("ocispec", "/ocispec", ""), Mount("artifacts", "/artifacts", "");
    var workspace := Mount(BuildContext(img), "/workspace", "");
    var storage := Mount(img.storageVolume, "/var/lib/containers", "containers");
    var certs := Mount(img.caCertificatesVolume, "/etc/ssl/buildah/certs", "");
    var credentials := Mount("image-credentials", "/root/.docker", "");
    TwoMounts(ocispec, artifacts);
    var ms := [ocispec, artifacts];
    OneMore(ms, BuildContext(img) != "", workspace);
    ms := ms + If(BuildContext(img) != "", [workspace]);
    OneMore(ms, img.storageVolume != "", storage);
    ms := ms + If(img.storageVolume != "", [storage]);
    OneMore(ms, img.caCertificatesVolume != "", certs);
    ms := ms + If(img.caCertificatesVolume != "", [certs]);
    OneMore(ms, img.credentials.Some?, credentials);
  }

  predicate BuilderAsks(s: ArtifactSpec, m: Mount) {
    || (s.grubConfig != "" && m == Mount("config", "/iso/iso-overlay/boot/grub2/grub.cfg", "grub.cfg"))
    || (s.overlayISOVolume != "" && m == Mount(s.overlayISOVolume, "/overlay-iso", ""))
    || (s.overlayRootfsVolume != "" && m == Mount(s.overlayRootfsVolume, "/overlay-rootfs", ""))
    || (s.uki.Some? && s.uki.value.keysVolume != "" && m == Mount(s.uki.value.keysVolume, "/uki-keys", ""))
    || (s.cloudConfigRef.Some? && m == Mount("cloudconfig", "/cloud-config.yaml", s.cloudConfigRef.value.key))
  }

  lemma AsksMeaning(s: ArtifactSpec, m: Mount)
    ensures BuilderAsks(s, m) <==> BuilderAskedAt(s, m.path) == Some(m)
    ensures BuilderAsks(s, m) ==> m.path != "/artifacts" && m.path != "/rootfs"
  {
  }

  lemma BuilderMountsMembers(a: OSArtifact, s: ArtifactSpec)
    requires a.artifacts == Some(s)
    ensures DistinctPaths(BuilderVolumeMounts(a))
    ensures forall m :: m in BuilderVolumeMounts(a) <==>
              m == Mount("artifacts", "/artifacts", "") || m == Mount("rootfs", "/rootfs", "") || BuilderAsks(s, m)
  {
    hide If, DistinctPaths;
    var rootfs, artifacts := Mount(ROOTFS, "/rootfs", ""), Mount("artifacts", "/artifacts", "");
    var grub := Mount("config", "/iso/iso-overlay/boot/grub2/grub.cfg", "grub.cfg");
    var iso, root := Mount(s.overlayISOVolume, "/overlay-iso", ""), Mount(s.overlayRootfsVolume, "/overlay-rootfs", "");
    var keys := Mount(UKIKeys(s), "/uki-keys", "");
    var cloud := Mount("cloudconfig", "/cloud-config.yaml", CloudConfigKey(s));
    TwoMounts(artifacts, rootfs);
    var ms := [artifacts, rootfs];
    OneMore(ms, s.grubConfig != "", grub);
    ms := ms + If(s.grubConfig != "", [grub]);
    OneMore(ms, s.overlayISOVolume != "", iso);
    ms := ms + If(s.overlayISOVolume != "", [iso]);
    OneMore(ms, s.overlayRootfsVolume != "", root);
    ms := ms + If(s.overlayRootfsVolume != "", [root]);
    OneMore(ms, s.uki.Some? && s.uki.value.keysVolume != "", keys);
    ms := ms + If(s.uki.Some? && s.uki.value.keysVolume != "", [keys]);
    OneMore(ms, s.cloudConfigRef.Some?, cloud);
  }

  lemma BuilderMountsMeaning(a: OSArtifact, role: Role, m: Mount)
    requires Shares(role)
    ensures m in BuilderVolumeMounts(a) <==> AskedAt(a, role, m.path) == Some(m)
  {
    if a.artifacts.Some? {
      BuilderMountsMembers(a, a.artifacts.value);
      AsksMeaning(a.artifacts.value, m);
      hide BuilderVolumeMounts, BuilderAsks, BuilderAskedAt;
    }
  }

  lemma MountsForMeaning(a: OSArtifact, role: Role)
    requires !role.Import?
    ensures DistinctPaths(MountsFor(a, role))
    ensures forall m :: m in MountsFor(a, role) <==> AskedAt(a, role, m.path) == Some(m)
  {
    PullMountsMeaning(a.image);
    BuildahMountsMeaning(a.image);
    hide PullMounts, BuildahMounts, StageOneAskedAt, BuilderAskedAt, BuilderAsks;
    if Shares(role) {
      if a.artifacts.Some? { BuilderMountsMembers(a, a.artifacts.value); }
      forall m ensures m in BuilderVolumeMounts(a) <==> AskedAt(a, role, m.path) == Some(m) {
        BuilderMountsMeaning(a, role, m);
      }
    }
  }

  /** A mount of "rootfs" is made from rootfsVolume, when that is set. */
  function Placed(a: OSArtifact, m: Mount): Mount {
    if a.artifacts.Some? && a.artifacts.value.rootfsVolume != "" && m.name == "rootfs"
    then Mount(a.artifacts.value.rootfsVolume, m.path, "rootfs") else m
  }

  /**
   * A container of the operator's has at each path the mount that is asked for there, and an importer has its own;
   * what would come from the rootfs volume comes from rootfsVolume. No path is mounted twice.
   */
  ghost predicate MountedAsAsked(a: OSArtifact, role: Role, ms: seq<Mount>)
    reads set i | i in a.importers :: i.mounts
  {
    if role.Import? then
      role.index < |a.importers| ==>
        var own := a.importers[role.index].mounts;
        |ms| == own.Length && forall k | 0 <= k < |ms| :: ms[k] == Placed(a, own[k])
    else
      && DistinctPaths(ms)
      && (forall m | m in ms :: exists x :: AskedAt(a, role, m.path) == Some(x) && m == Placed(a, x))
      && (forall path :: AskedAt(a, role, path).Some? ==> Placed(a, AskedAt(a, role, path).value) in ms)
  }

  lemma FinalMountsPlaced(a: OSArtifact, ms: seq<Mount>)
    ensures |FinalMounts(a, ms)| == |ms| && forall k | 0 <= k < |ms| :: FinalMounts(a, ms)[k] == Placed(a, ms[k])
  {
  }

  lemma MountedMeaning(a: OSArtifact, role: Role)
    ensures MountedAsAsked(a, role, FinalMounts(a, StartMounts(a, role)))
  {
    FinalMountsPlaced(a, StartMounts(a, role));
    if !role.Import? {
      MountsForMeaning(a, role);
      hide FinalMounts, MountsFor, AskedAt;
      AllPlaced(a, role, MountsFor(a, role), FinalMounts(a, MountsFor(a, role)));
    } else {
      hide FinalMounts, MountsFor, AskedAt, Placed;
    }
  }

  lemma AllPlaced(a: OSArtifact, role: Role, asked: seq<Mount>, ms: seq<Mount>)
    requires DistinctPaths(asked) && forall m :: m in asked <==> AskedAt(a, role, m.path) == Some(m)
    requires |ms| == |asked| && forall k | 0 <= k < |ms| :: ms[k] == Placed(a, asked[k])
    ensures DistinctPaths(ms)
    ensures forall m | m in ms :: exists x :: AskedAt(a, role, m.path) == Some(x) && m == Placed(a, x)
    ensures forall path :: AskedAt(a, role, path).Some? ==> Placed(a, AskedAt(a, role, path).value) in ms
  {
    hide AskedAt;
    forall path | AskedAt(a, role, path).Some? ensures Placed(a, AskedAt(a, role, path).value) in ms {
      var x := AskedAt(a, role, path).value;
      AskedThere(a, role, path);
      var k :| 0 <= k < |asked| && asked[k] == x;
      assert ms[k] == Placed(a, x);
    }
    forall m | m in ms ensures exists x :: AskedAt(a, role, m.path) == Some(x) && m == Placed(a, x) {
      var k :| 0 <= k < |ms| && ms[k] == m;
      assert asked[k] in asked;
    }
  }

  lemma AskedThere(a: OSArtifact, role: Role, path: string)
    ensures AskedAt(a, role, path).Some? ==> AskedAt(a, role, path).value.path == path
  {
  }

  method NewSlice(ms: seq<Mount>) returns (a: array<Mount>)
    ensures fresh(a) && a[..] == ms
  {
    a := new Mount[|ms|](i requires 0 <= i < |ms| => ms[i]);
  }

  /** replaceRootfsVolumeMounts: works in place, also when containers share their mounts. */
  method ReplaceRootfsVolumeMounts(containers: seq<Container>, volume: string)
    modifies set c | c in containers :: c.mounts
    ensures forall c | c in containers :: c.mounts[..] == RedirectAll(volume, old(c.mounts[..]))
  {
    var i := 0;
    while i < |containers|
      invariant 0 <= i <= |containers|
      invariant forall k | 0 <= k < i :: containers[k].mounts[..] == RedirectAll(volume, old(containers[k].mounts[..]))
      invariant forall c | c in containers :: forall j | 0 <= j < c.mounts.Length ::
                  c.mounts[j] == old(c.mounts[j]) || c.mounts[j] == Redirect(volume, old(c.mounts[j]))
    {
      var mounts := containers[i].mounts;
      var j := 0;
      while j < mounts.Length
        invariant 0 <= j <= mounts.Length
        invariant forall k | 0 <= k < j :: mounts[k] == Redirect(volume, old(mounts[k]))
        invariant forall k | 0 <= k < i :: containers[k].mounts[..] == RedirectAll(volume, old(containers[k].mounts[..]))
        invariant forall c | c in containers :: forall j | 0 <= j < c.mounts.Length ::
                    c.mounts[j] == old(c.mounts[j]) || c.mounts[j] == Redirect(volume, old(c.mounts[j]))
      {
        assert containers[i] in containers;
        if mounts[j].name == ROOTFS {
          mounts[j] := mounts[j].(name := volume, subPath := "rootfs");
        }
        j := j + 1;
      }
      i := i + 1;
    }
  }

  lemma RedirectTwice(volume: string, ms: seq<Mount>)
    ensures RedirectAll(volume, RedirectAll(volume, ms)) == RedirectAll(volume, ms)
  {
  }

  /** Both lists of containers, which may share mounts with each other. */
  method RedirectRootfs(inits: seq<Container>, mains: seq<Container>, volume: string)
    modifies set c | c in inits + mains :: c.mounts
    ensures forall c | c in inits + mains :: c.mounts[..] == RedirectAll(volume, old(c.mounts[..]))
  {
    ReplaceRootfsVolumeMounts(inits, volume);
    label between:
    ReplaceRootfsVolumeMounts(mains, volume);
    forall c | c in inits + mains ensures c.mounts[..] == RedirectAll(volume, old(c.mounts[..])) {
      RedirectTwice(volume, old(c.mounts[..]));
      if c in inits {
        if d :| d in mains && d.mounts == c.mounts {
          assert old@between(d.mounts[..]) == RedirectAll(volume, old(c.mounts[..]));
        } else {
          assert c.mounts[..] == old@between(c.mounts[..]);
        }
      } else if d :| d in inits && d.mounts == c.mounts {
        assert old@between(c.mounts[..]) == RedirectAll(volume, old(d.mounts[..]));
      } else {
        assert old@between(c.mounts[..]) == old(c.mounts[..]);
      }
    }
  }

  /** A container with mounts of its own. */
  method NewContainer(a: OSArtifact, role: Role) returns (c: Container)
    requires !role.Import?
    ensures c.role == role && fresh(c.mounts) && c.mounts[..] == MountsFor(a, role)
  {
    var mounts := NewSlice(MountsFor(a, role));
    c := Container(role, mounts);
  }

  /** The importers, copied: the Pod's containers must not share the spec's mounts. */
  method CopyImporters(a: OSArtifact) returns (inits: seq<Container>)
    ensures Roles(inits) == Imports(|a.importers|) && AllMade(a, inits)
    ensures forall c | c in inits :: fresh(c.mounts)
  {
    inits := [];
    var i := 0;
    while i < |a.importers|
      invariant 0 <= i <= |a.importers| && |inits| == i
      invariant forall k | 0 <= k < i :: inits[k].role == Import(k)
      invariant AllMade(a, inits) && forall c | c in inits :: fresh(c.mounts)
    {
      var mounts := NewSlice(a.importers[i].mounts[..]);
      inits := inits + [Container(Import(i), mounts)];
      i := i + 1;
    }
  }

  method BundleContainers(a: OSArtifact, images: seq<string>) returns (cs: seq<Container>)
    ensures Roles(cs) == Bundles(images) && AllMade(a, cs)
    ensures forall c | c in cs :: fresh(c.mounts)
  {
    cs := [];
    var i := 0;
    while i < |images|
      invariant 0 <= i <= |images| && |cs| == i
      invariant forall k | 0 <= k < i :: cs[k].role == Bundle(k, images[k])
      invariant AllMade(a, cs) && forall c | c in cs :: fresh(c.mounts)
    {
      var c := NewContainer(a, Bundle(i, images[i]));
      cs := cs + [c];
      i := i + 1;
    }
  }

  method ReleaseContainers(a: OSArtifact, s: ArtifactSpec) returns (cs: seq<Container>)
    ensures Roles(cs) == Releases(s) && AllMade(a, cs)
    ensures forall c | c in cs :: fresh(c.mounts)
  {
    cs := [];
    if s.osRelease != "" {
      var c := NewContainer(a, OSRelease);
      cs := cs + [c];
    }
    if s.kairosRelease != "" {
      var c := NewContainer(a, KairosRelease);
      cs := cs + [c];
    }
  }

  /** The containers that share one slice of mounts. */
  ghost predicate AllShare(cs: seq<Container>, shared: array<Mount>) {
    forall c | c in cs :: c.mounts == shared && Shares(c.role)
  }

  predicate Shares(role: Role) {
    role.BuildUKI? || role.BuildISO? || role.Netboot? || role.CloudImage? || role.AzureImage? || role.GCEImage?
  }

  method UKIContainers(s: ArtifactSpec, shared: array<Mount>) returns (cs: seq<Container>)
    ensures Roles(cs) == UKIBuilds(s) && AllShare(cs, shared)
  {
    cs := [];
    if s.uki.Some? && (s.uki.value.iso || s.uki.value.container || s.uki.value.efi) {
      if s.uki.value.iso { cs := cs + [Container(BuildUKI(UKIISO), shared)]; }
      if s.uki.value.container { cs := cs + [Container(BuildUKI(UKIContainer), shared)]; }
      if s.uki.value.efi { cs := cs + [Container(BuildUKI(UKIEFI), shared)]; }
    }
  }

  method ISOContainers(s: ArtifactSpec, shared: array<Mount>) returns (cs: seq<Container>)
    ensures Roles(cs) == ISOBuilds(s) && AllShare(cs, shared)
  {
    cs := [];
    if s.iso || s.netboot { cs := cs + [Container(BuildISO, shared)]; }
    if s.netboot { cs := cs + [Container(Netboot, shared)]; }
  }

  method ImageContainers(s: ArtifactSpec, shared: array<Mount>) returns (cs: seq<Container>)
    ensures Roles(cs) == ParallelSteps(s) && AllShare(cs, shared)
  {
    cs := [];
    if s.cloudImage { cs := cs + [Container(CloudImage, shared)]; }
    if s.azureImage { cs := cs + [Container(AzureImage, shared)]; }
    if s.gceImage { cs := cs + [Container(GCEImage, shared)]; }
  }

  lemma RolesJoin(xs: seq<Container>, ys: seq<Container>)
    ensures Roles(xs + ys) == Roles(xs) + Roles(ys)
  {
  }

  lemma SharedAreMade(a: OSArtifact, cs: seq<Container>, shared: array<Mount>)
    requires AllShare(cs, shared) && shared[..] == BuilderVolumeMounts(a)
    ensures AllMade(a, cs) && forall c | c in cs :: c.mounts == shared
  {
  }

  /** The init containers after stage 1. */
  method SequentialContainers(a: OSArtifact, s: ArtifactSpec, shared: array<Mount>) returns (cs: seq<Container>)
    requires a.artifacts == Some(s) && shared[..] == BuilderVolumeMounts(a)
    ensures Roles(cs) == SequentialSteps(a, s) && AllMade(a, cs)
    ensures forall c | c in cs :: c.mounts == shared || fresh(c.mounts)
  {
    hide BuilderVolumeMounts, Bundles, UKIBuilds, Releases, ISOBuilds, MountsFor, Roles, AllShare;
    cs := [];
    NoRoles();
    if HasRef(a.image) {
      var c := NewContainer(a, ImageExtractor);
      cs := [c];
      OneRole(c);
    }
    var bundles := BundleContainers(a, s.bundles);
    RolesJoin(cs, bundles);
    cs := cs + bundles;
    var releases := ReleaseContainers(a, s);
    RolesJoin(cs, releases);
    cs := cs + releases;
    var ukis := UKIContainers(s, shared);
    SharedAreMade(a, ukis, shared);
    RolesJoin(cs, ukis);
    cs := cs + ukis;
    var isos := ISOContainers(s, shared);
    SharedAreMade(a, isos, shared);
    RolesJoin(cs, isos);
    cs := cs + isos;
  }

  lemma NoRoles()
    ensures Roles([]) == []
  {
  }

  lemma OneRole(c: Container)
    ensures Roles([c]) == [c.role]
  {
  }

  /** Stage 1: pull image.ref, or build the image. */
  method StageOne(a: OSArtifact) returns (c: Option<Container>)
    ensures c.Some? <==> Buildable(a)
    ensures c.Some? ==>
              && fresh(c.value.mounts) && c.value.mounts[..] == MountsFor(a, c.value.role)
              && c.value.role == if a.image.ref != "" then PullBaseImage else BuildahBuild
  {
    if a.image.ref != "" {
      var r := NewContainer(a, PullBaseImage);
      c := Some(r);
    } else if HasRef(a.image) {
      var r := NewContainer(a, BuildahBuild);
      c := Some(r);
    } else {
      c := None;
    }
  }

  /** The containers before rootfs mounts are redirected: the init containers, and those that run side by side. */
  method StartContainers(a: OSArtifact, shared: array<Mount>) returns (r: Option<(seq<Container>, seq<Container>)>)
    requires shared[..] == BuilderVolumeMounts(a)
    ensures r.Some? <==> Buildable(a)
    ensures r.Some? ==>
              var (inits, mains) := r.value;
              && inits != [] && Roles(inits) == InitPlan(a) && Roles(mains) == MainPlan(a)
              && AllMade(a, inits + mains)
              && forall c | c in inits + mains :: c.mounts == shared || fresh(c.mounts)
  {
    hide BuilderVolumeMounts, SequentialSteps, ParallelSteps, MountsFor, Imports, Roles;
    var inits := CopyImporters(a);
    var mains: seq<Container> := [];
    NoRoles();
    var stage := StageOne(a);
    if stage.None? { return None; }
    RolesJoin(inits, [stage.value]);
    OneRole(stage.value);
    inits := inits + [stage.value];
    if a.artifacts.Some? {
      var steps := SequentialContainers(a, a.artifacts.value, shared);
      RolesJoin(inits, steps);
      inits := inits + steps;
      mains := ImageContainers(a.artifacts.value, shared);
      SharedAreMade(a, mains, shared);
    }
    r := Some((inits, mains));
  }

  /** newBuilderPod; None is the empty Pod of a spec whose image definition is not resolved. */
  method NewBuilderPod(a: OSArtifact) returns (pod: Option<Pod>)
    ensures pod.Some? <==> Buildable(a)
    ensures pod.Some? ==>
              && pod.value.volumes == PodVolumes(a)
              && pod.value.mains != []
              && Roles(pod.value.inits + pod.value.mains) == Plan(a)
              && (MainPlan(a) != [] ==> Roles(pod.value.mains) == MainPlan(a))
              && (MainPlan(a) == [] ==> |pod.value.mains| == 1)
              && forall c | c in pod.value.inits + pod.value.mains ::
                   fresh(c.mounts) && c.mounts[..] == FinalMounts(a, StartMounts(a, c.role))
    ensures pod.Some? ==> forall c | c in pod.value.inits + pod.value.mains :: MountedAsAsked(a, c.role, c.mounts[..])
    ensures pod.Some? && ValidSpec(a) ==> forall v :: v in pod.value.volumes <==> v in a.volumes || OwnVolume(a, v)
  {
    hide MountedAsAsked, OwnVolume, ValidSpec;
    hide BuilderVolumeMounts, PodVolumes, InitPlan, MainPlan, MountsFor, Imports, Roles, RedirectAll;
    var shared := NewSlice(BuilderVolumeMounts(a));
    var made := StartContainers(a, shared);
    if made.None? { return None; }
    var (inits, mains) := made.value;
    RolesJoin(inits, mains);
    RolesLength(mains);
    ghost var all := inits + mains;
    assert AllMade(a, all) && forall c | c in all :: fresh(c.mounts);
    if a.artifacts.Some? && a.artifacts.value.rootfsVolume != "" {
      RedirectRootfs(inits, mains, a.artifacts.value.rootfsVolume);
    }
    if |mains| == 0 {
      mains := inits[|inits| - 1..];
      inits := inits[..|inits| - 1];
    }
    assert inits + mains == all;
    pod := Some(Pod(PodVolumes(a), inits, mains));
    forall c | c in all ensures MountedAsAsked(a, c.role, c.mounts[..]) { MountedMeaning(a, c.role); }
    if ValidSpec(a) { VolumesAsAsked(a); }
  }

  lemma RolesLength(cs: seq<Container>)
    ensures |Roles(cs)| == |cs|
  {
  }
}
