/** What holds of every builder Pod made from a valid spec. */
module BuilderPlan {
  import opened Wrappers
  import opened OSArtifactSpec
  import opened BuilderPod

  predicate DistinctVolumes(vs: seq<Volume>) {
    forall i, k | 0 <= i < k < |vs| :: vs[i].name != vs[k].name
  }

  /** The operator's own volumes, in front of the user's. */
  function OwnVolumes(a: OSArtifact): seq<Volume> {
    OwnList(a, PodVolumes(a)[0])
  }

  predicate OwnName(a: OSArtifact, name: string) {
    || name == "artifacts" || name == "config"
    || (name == ROOTFS && RootfsVolume(a) == "")
    || (name == "ocispec" && HasRef(a.image))
    || (name == "image-credentials" && a.image.credentials.Some?)
    || (name == "cloudconfig" && a.artifacts.Some? && a.artifacts.value.cloudConfigRef.Some?)
  }

  lemma OwnVolumesMeaning(a: OSArtifact)
    requires ValidSpec(a)
    ensures DistinctVolumes(OwnVolumes(a))
    ensures forall n :: n in VolumeNames(OwnVolumes(a)) <==> OwnName(a, n)
  {
    ArtifactsVolume(a, PodVolumes(a)[0]);
    hide PodVolumes, ValidSpec;
    OwnNames(a, PodVolumes(a)[0]);
  }

  lemma OwnNames(a: OSArtifact, artifacts: Volume)
    requires artifacts.name == "artifacts"
    ensures DistinctVolumes(OwnList(a, artifacts)) && forall n :: n in VolumeNames(OwnList(a, artifacts)) <==> OwnName(a, n)
  {
    OwnDistinct(a, artifacts);
    hide HasRef, RootfsVolume, RefName, CredentialsName, CloudConfigName, DistinctVolumes;
  }

  lemma OwnDistinct(a: OSArtifact, artifacts: Volume)
    requires artifacts.name == "artifacts"
    ensures DistinctVolumes(OwnList(a, artifacts))
  {
    hide HasRef, RootfsVolume, RefName, CredentialsName, CloudConfigName;
  }

  lemma JoinNames(xs: seq<Volume>, ys: seq<Volume>)
    ensures VolumeNames(xs + ys) == VolumeNames(xs) + VolumeNames(ys)
  {
    forall n | n in VolumeNames(xs) + VolumeNames(ys) ensures n in VolumeNames(xs + ys) {
      var v :| (v in xs || v in ys) && v.name == n;
      assert v in xs + ys;
    }
  }

  lemma JoinDistinct(xs: seq<Volume>, ys: seq<Volume>)
    requires DistinctVolumes(xs) && DistinctVolumes(ys)
    ensures DistinctVolumes(xs + ys) <==> VolumeNames(xs) !! VolumeNames(ys)
  {
    var all := xs + ys;
    if DistinctVolumes(all) {
      forall i, k | 0 <= i < |xs| && 0 <= k < |ys| ensures xs[i].name != ys[k].name {
        assert all[i] == xs[i] && all[|xs| + k] == ys[k];
      }
    }
    if VolumeNames(xs) !! VolumeNames(ys) {
      forall i, k | 0 <= i < k < |all| ensures all[i].name != all[k].name {
        if i < |xs| && k >= |xs| {
          assert xs[i] in xs && ys[k - |xs|] in ys;
          assert xs[i].name in VolumeNames(xs) && ys[k - |xs|].name in VolumeNames(ys);
        }
      }
    }
  }

  /**
   * The Pod's volume names are distinct, unless the Pod mounts image credentials and the user
   * has a volume of that name: validation does not reserve it.
   */
  lemma VolumesAreDistinct(a: OSArtifact)
    requires ValidSpec(a)
    ensures DistinctVolumes(PodVolumes(a)) <==>
            !(a.image.credentials.Some? && "image-credentials" in VolumeNames(a.volumes))
  {
    PodVolumesSplit(a);
    OwnVolumesMeaning(a);
    hide PodVolumes, OwnVolumes, ImageFine, ArtifactsFine;
    JoinDistinct(OwnVolumes(a), a.volumes);
    forall n | n in VolumeNames(a.volumes) ensures n !in RESERVED {
      var v :| v in a.volumes && v.name == n;
    }
  }

  predicate Declared(a: OSArtifact, m: Mount) {
    m.name in VolumeNames(PodVolumes(a))
  }

  lemma DeclaredMeaning(a: OSArtifact)
    requires ValidSpec(a)
    ensures forall m :: Declared(a, m) <==> OwnName(a, m.name) || m.name in VolumeNames(a.volumes)
  {
    PodVolumesSplit(a);
    OwnVolumesMeaning(a);
    JoinNames(OwnVolumes(a), a.volumes);
  }

  /** The keys volume, which is mounted whenever it is named, is there to be mounted. */
  predicate KeysDeclared(a: OSArtifact) {
    a.artifacts.Some? && UKIKeys(a.artifacts.value) != "" ==>
      Declared(a, FinalMount(a, Mount(UKIKeys(a.artifacts.value), "/uki-keys", "")))
  }

  function FinalMount(a: OSArtifact, m: Mount): Mount {
    if RootfsVolume(a) != "" then Redirect(RootfsVolume(a), m) else m
  }

  /** The keys volume, if there is one, is a volume of the user's or bears the name of one the operator adds. */
  predicate KeysNamed(a: OSArtifact) {
    a.artifacts.Some? ==>
      var keys := UKIKeys(a.artifacts.value);
      keys == "" || keys == ROOTFS || OwnName(a, keys) || keys in VolumeNames(a.volumes)
  }

  lemma KeysDeclaredMeaning(a: OSArtifact)
    requires ValidSpec(a)
    ensures KeysDeclared(a) <==> KeysNamed(a)
  {
    DeclaredMeaning(a);
    hide PodVolumes, ImageFine, VolumesFine, Declared;
    if a.artifacts.Some? && KeysNamed(a) && UKIKeys(a.artifacts.value) != "" {
      VouchedIsDeclared(a, Mount(UKIKeys(a.artifacts.value), "/uki-keys", ""));
    }
  }

  /** With a UKI output to build, or no uki block, validation has looked at the keys volume. */
  lemma KeysAreDeclared(a: OSArtifact)
    requires ValidSpec(a)
    requires a.artifacts.Some? && a.artifacts.value.uki.Some? ==> UKIRequested(a.artifacts.value)
    ensures KeysNamed(a) && KeysDeclared(a)
  {
    DeclaredMeaning(a);
    if a.artifacts.Some? && UKIKeys(a.artifacts.value) != "" {
      UserName(a, UKIKeys(a.artifacts.value));
    }
  }

  /**
   * The volume that takes the artifacts is used for nothing else in the build: it is neither where the root file system
   * is unpacked nor where the image is built.
   */
  lemma ArtifactsApart(a: OSArtifact, role: Role, m: Mount)
    requires ValidSpec(a) && a.artifacts.Some? && a.artifacts.value.volume != ""
    requires role in Plan(a) && !role.Import? && m in FinalMounts(a, MountsFor(a, role))
    requires m.path == "/rootfs" || m.path == "/var/lib/containers"
    ensures m.name != a.artifacts.value.volume
  {
    PlanMembers(a, role);
    MountedMeaning(a, role);
    hide Plan, MountsFor, FinalMounts, VolumesFine, PodVolumes, AskedAt, ImageFine;
    var x :| AskedAt(a, role, m.path) == Some(x) && m == Placed(a, x);
    RootfsOrStorage(a, role, x);
    NotReserved(a, a.artifacts.value.volume);
    hide Requested;
  }

  lemma RootfsOrStorage(a: OSArtifact, role: Role, x: Mount)
    requires !role.Import? && AskedAt(a, role, x.path) == Some(x) && (x.path == "/rootfs" || x.path == "/var/lib/containers")
    ensures x.name == "rootfs" || (role == BuildahBuild && x.name == a.image.storageVolume)
  {
  }

  lemma NotReserved(a: OSArtifact, name: string)
    requires VolumesFine(a.volumes) && name in VolumeNames(a.volumes)
    ensures name !in RESERVED
  {
    var v :| v in a.volumes && v.name == name;
  }

  /** A volume of the user's is declared, and never one that rootfsVolume redirects. */
  lemma UserName(a: OSArtifact, name: string)
    requires ValidSpec(a) && name in VolumeNames(a.volumes)
    ensures name != ROOTFS
    ensures forall path, sub :: FinalMount(a, Mount(name, path, sub)) == Mount(name, path, sub)
  {
    var v :| v in a.volumes && v.name == name;
  }

  /** The mounts whose names the operator or validation vouches for. */
  predicate Vouched(a: OSArtifact, m: Mount) {
    m.name == ROOTFS || OwnName(a, m.name) || m.name in VolumeNames(a.volumes)
  }

  lemma VouchedIsDeclared(a: OSArtifact, m: Mount)
    requires ValidSpec(a) && Vouched(a, m)
    ensures Declared(a, FinalMount(a, m))
  {
    DeclaredMeaning(a);
    hide PodVolumes, ImageFine, VolumesFine;
  }

  lemma OwnMountsVouched(a: OSArtifact, role: Role)
    requires ValidSpec(a) && Buildable(a) && Requested(a, role) && !Shares(role)
    ensures forall m | m in MountsFor(a, role) :: Vouched(a, m)
  {
    hide Vouched, PodVolumes;
    VouchedStage(a, role);
  }

  lemma VouchedStage(a: OSArtifact, role: Role)
    requires ValidSpec(a) && !Shares(role) && (role.BuildahBuild? ==> a.image.ref == "" && HasRef(a.image))
    ensures forall m | m in MountsFor(a, role) :: Vouched(a, m)
  {
  }

  lemma SharedMountsVouched(a: OSArtifact)
    requires ValidSpec(a)
    ensures forall m | m in BuilderVolumeMounts(a) ::
              Vouched(a, m) || (a.artifacts.Some? && UKIKeys(a.artifacts.value) != "" &&
                                m == Mount(UKIKeys(a.artifacts.value), "/uki-keys", ""))
  {
    hide ImageFine, VolumesFine;
  }

  lemma MountDeclared(a: OSArtifact, role: Role, m: Mount)
    requires ValidSpec(a) && Buildable(a) && KeysDeclared(a)
    requires Requested(a, role) && !role.Import? && m in MountsFor(a, role)
    ensures Declared(a, FinalMount(a, m))
  {
    hide ValidSpec, Requested, Vouched, Declared, FinalMount;
    if !Shares(role) {
      OwnMountsVouched(a, role);
    } else {
      SharedMountsVouched(a);
    }
    hide *;
    if Vouched(a, m) {
      VouchedIsDeclared(a, m);
    } else {
      KeysCase(a, m);
    }
  }

  lemma KeysCase(a: OSArtifact, m: Mount)
    requires KeysDeclared(a) && a.artifacts.Some? && m == Mount(UKIKeys(a.artifacts.value), "/uki-keys", "")
    requires UKIKeys(a.artifacts.value) != ""
    ensures Declared(a, FinalMount(a, m))
  {
  }

  ghost predicate AllDeclared(a: OSArtifact) {
    forall role, m | role in Plan(a) && !role.Import? && m in MountsFor(a, role) :: Declared(a, FinalMount(a, m))
  }

  lemma AllMountsDeclared(a: OSArtifact)
    requires ValidSpec(a) && Buildable(a) && KeysDeclared(a)
    ensures AllDeclared(a)
  {
    hide ValidSpec, Buildable, KeysDeclared, Plan, Requested, MountsFor, Declared, FinalMount;
    forall role, m | role in Plan(a) && !role.Import? && m in MountsFor(a, role) ensures Declared(a, FinalMount(a, m)) {
      PlanMembers(a, role);
      MountDeclared(a, role, m);
    }
  }

  lemma OneUndeclared(a: OSArtifact, role: Role, m: Mount)
    ensures role in Plan(a) && !role.Import? && m in MountsFor(a, role) && !Declared(a, FinalMount(a, m)) ==> !AllDeclared(a)
  {
    hide Plan, MountsFor, Declared, FinalMount;
  }

  /**
   * Every mount of every container the operator makes names a volume of the Pod exactly when the
   * name of the keys volume is empty, the operator's or a user volume's; with KeysAreDeclared: always,
   * for a spec that asks for UKI outputs whenever it has a uki block.
   */
  lemma MountsAreDeclared(a: OSArtifact)
    requires ValidSpec(a) && Buildable(a)
    ensures AllDeclared(a) <==> KeysNamed(a)
  {
    KeysDeclaredMeaning(a);
    hide KeysNamed;
    hide AllDeclared, Plan, ValidSpec, Buildable, Declared, FinalMount, BuilderVolumeMounts, PullMounts, BuildahMounts, Shares;
    if KeysDeclared(a) {
      AllMountsDeclared(a);
    } else {
      var role := SomeBuilder(a);
      KeysMount(a);
      SharedMounts(a, role);
      OneUndeclared(a, role, Mount(UKIKeys(a.artifacts.value), "/uki-keys", ""));
    }
  }

  /** An ISO made from an image that is there, with a uki block that asks for no output. */
  function UnusedKeys(): OSArtifact {
    OSArtifact(
      "unused-keys",
      ImageSpec("quay.io/kairos/opensuse:latest", None, None, None, false, None, "", ""),
      Some(ArtifactSpec(true, false, false, false, false, None, "", [], "", "", "", "",
                        Some(UKISpec(false, false, false, "keys")), "", "")),
      [], [], NameOverrides("", "", "", "", "", ""))
  }

  /** Validation does not look at a keys volume that no output needs, but the builders mount it. */
  lemma UnusedKeysAreMounted()
    ensures ValidSpec(UnusedKeys()) && Buildable(UnusedKeys()) && !AllDeclared(UnusedKeys())
  {
    MountsAreDeclared(UnusedKeys());
    hide AllDeclared;
  }

  /** An image that is pulled with credentials, and a user volume that bears their volume's name. */
  function NamedLikeCredentials(): OSArtifact {
    UnusedKeys().(
      image := ImageSpec("quay.io/kairos/opensuse:latest", None, None, None, false, Some(SecretRef("pull", "")), "", ""),
      volumes := [Volume("image-credentials", UserSource(0))])
  }

  lemma CredentialsNameClashes()
    ensures ValidSpec(NamedLikeCredentials()) && !DistinctVolumes(PodVolumes(NamedLikeCredentials()))
  {
    var a := NamedLikeCredentials();
    assert a.volumes[0] in a.volumes;
    hide DistinctVolumes, PodVolumes;
    VolumesAreDistinct(a);
  }

  lemma SharedMounts(a: OSArtifact, role: Role)
    requires Shares(role)
    ensures MountsFor(a, role) == BuilderVolumeMounts(a) && !role.Import?
  {
  }

  lemma KeysMount(a: OSArtifact)
    requires a.artifacts.Some? && UKIKeys(a.artifacts.value) != ""
    ensures Mount(UKIKeys(a.artifacts.value), "/uki-keys", "") in BuilderVolumeMounts(a)
  {
  }

  /** A valid spec with artifacts builds at least one. */
  lemma SomeBuilder(a: OSArtifact) returns (role: Role)
    requires ValidSpec(a) && a.artifacts.Some?
    ensures role in Plan(a) && Shares(role)
  {
    var s := a.artifacts.value;
    role := if s.iso || s.netboot then BuildISO
            else if s.cloudImage then CloudImage
            else if s.azureImage then AzureImage
            else if s.gceImage then GCEImage
            else if s.uki.value.iso then BuildUKI(UKIISO)
            else if s.uki.value.container then BuildUKI(UKIContainer)
            else BuildUKI(UKIEFI);
    PlanMembers(a, role);
  }

  /** What the plan holds, by what the spec asks for. */
  predicate Requested(a: OSArtifact, role: Role) {
    match role
    case Import(i) => i < |a.importers|
    case PullBaseImage => a.image.ref != ""
    case BuildahBuild => a.image.ref == ""
    case _ => a.artifacts.Some? && RequestedArtifact(a, a.artifacts.value, role)
  }

  predicate RequestedArtifact(a: OSArtifact, s: ArtifactSpec, role: Role) {
    match role
    case ImageExtractor => HasRef(a.image)
    case Bundle(i, image) => i < |s.bundles| && s.bundles[i] == image
    case OSRelease => s.osRelease != ""
    case KairosRelease => s.kairosRelease != ""
    case BuildUKI(UKIISO) => s.uki.Some? && s.uki.value.iso
    case BuildUKI(UKIContainer) => s.uki.Some? && s.uki.value.container
    case BuildUKI(UKIEFI) => s.uki.Some? && s.uki.value.efi
    case BuildISO => s.iso || s.netboot
    case Netboot => s.netboot
    case CloudImage => s.cloudImage
    case AzureImage => s.azureImage
    case GCEImage => s.gceImage
    case _ => false
  }

  lemma BundleMember(images: seq<string>, r: Role)
    ensures r in Bundles(images) <==> r.Bundle? && r.index < |images| && images[r.index] == r.image
  {
    if r.Bundle? && r.index < |images| && images[r.index] == r.image {
      assert Bundles(images)[r.index] == r;
    }
  }

  lemma ImportMember(n: nat, r: Role)
    ensures r in Imports(n) <==> r.Import? && r.index < n
  {
    if r.Import? && r.index < n {
      assert Imports(n)[r.index] == r;
    }
  }

  lemma JoinMember(xs: seq<Role>, ys: seq<Role>, r: Role)
    ensures r in xs + ys <==> r in xs || r in ys
  {
  }

  lemma StepMember(a: OSArtifact, s: ArtifactSpec, r: Role)
    ensures r in Releases(s) <==> (r == OSRelease && s.osRelease != "") || (r == KairosRelease && s.kairosRelease != "")
    ensures r in ISOBuilds(s) <==> (r == BuildISO && (s.iso || s.netboot)) || (r == Netboot && s.netboot)
    ensures r in ParallelSteps(s) <==>
              (r == CloudImage && s.cloudImage) || (r == AzureImage && s.azureImage) || (r == GCEImage && s.gceImage)
    ensures r in If(HasRef(a.image), [ImageExtractor]) <==> HasRef(a.image) && r == ImageExtractor
  {
    hide If, HasRef;
    IfMember(s.osRelease != "", OSRelease, r);
    IfMember(s.kairosRelease != "", KairosRelease, r);
    JoinMember(If(s.osRelease != "", [OSRelease]), If(s.kairosRelease != "", [KairosRelease]), r);
    IfMember(s.iso || s.netboot, BuildISO, r);
    IfMember(s.netboot, Netboot, r);
    JoinMember(If(s.iso || s.netboot, [BuildISO]), If(s.netboot, [Netboot]), r);
    var x, y, z := If(s.cloudImage, [CloudImage]), If(s.azureImage, [AzureImage]), If(s.gceImage, [GCEImage]);
    IfMember(s.cloudImage, CloudImage, r);
    IfMember(s.azureImage, AzureImage, r);
    IfMember(s.gceImage, GCEImage, r);
    JoinMember(x, y, r);
    JoinMember(x + y, z, r);
    IfMember(HasRef(a.image), ImageExtractor, r);
  }

  lemma UKIMember(a: OSArtifact, s: ArtifactSpec, r: Role)
    ensures r in UKIBuilds(s) <==> r.BuildUKI? && RequestedArtifact(a, s, r)
  {
    hide If;
    if s.uki.Some? {
      var u := s.uki.value;
      var x, y, z := If(u.iso, [BuildUKI(UKIISO)]), If(u.container, [BuildUKI(UKIContainer)]), If(u.efi, [BuildUKI(UKIEFI)]);
      IfMember(u.iso, BuildUKI(UKIISO), r);
      IfMember(u.container, BuildUKI(UKIContainer), r);
      IfMember(u.efi, BuildUKI(UKIEFI), r);
      JoinMember(x, y, r);
      JoinMember(x + y, z, r);
    }
  }

  lemma SequentialMember(a: OSArtifact, s: ArtifactSpec, role: Role)
    ensures role in SequentialSteps(a, s) <==>
            || role in If(HasRef(a.image), [ImageExtractor]) || role in Bundles(s.bundles)
            || role in Releases(s) || role in UKIBuilds(s) || role in ISOBuilds(s)
  {
    hide Bundles, Releases, ISOBuilds, UKIBuilds, If, HasRef;
  }

  lemma ArtifactMember(a: OSArtifact, s: ArtifactSpec, role: Role)
    ensures role in SequentialSteps(a, s) || role in ParallelSteps(s) <==> RequestedArtifact(a, s, role)
  {
    BundleMember(s.bundles, role);
    StepMember(a, s, role);
    UKIMember(a, s, role);
    SequentialMember(a, s, role);
    hide Bundles, Releases, ISOBuilds, ParallelSteps, UKIBuilds, If, HasRef, SequentialSteps;
  }

  /** A container is planned exactly when it is asked for. */
  lemma PlanMembers(a: OSArtifact, role: Role)
    ensures role in Plan(a) <==> Requested(a, role)
  {
    ImportMember(|a.importers|, role);
    if a.artifacts.Some? { ArtifactMember(a, a.artifacts.value, role); }
    hide Imports, SequentialSteps, ParallelSteps;
    var importers, stage := Imports(|a.importers|), [if a.image.ref != "" then PullBaseImage else BuildahBuild];
    assert role in stage <==> role == stage[0];
    NotArtifact(a, role);
    hide RequestedArtifact;
    assert role in InitPlan(a) <==>
           || role in importers || role == stage[0]
           || (a.artifacts.Some? && role in SequentialSteps(a, a.artifacts.value));
  }

  lemma NotArtifact(a: OSArtifact, role: Role)
    ensures a.artifacts.Some? && (role.Import? || role.PullBaseImage? || role.BuildahBuild?) ==>
              !RequestedArtifact(a, a.artifacts.value, role)
  {
  }

  /** The order of the plan. */
  function Stage(role: Role): nat {
    match role
    case Import(_) => 0
    case PullBaseImage => 1
    case BuildahBuild => 1
    case ImageExtractor => 2
    case Bundle(_, _) => 3
    case OSRelease => 4
    case KairosRelease => 5
    case BuildUKI(UKIISO) => 6
    case BuildUKI(UKIContainer) => 7
    case BuildUKI(UKIEFI) => 8
    case BuildISO => 9
    case Netboot => 10
    case CloudImage => 11
    case AzureImage => 12
    case GCEImage => 13
  }

  function Place(role: Role): nat {
    if role.Import? || role.Bundle? then role.index else 0
  }

  predicate Before(a: Role, b: Role) {
    Stage(a) < Stage(b) || (Stage(a) == Stage(b) && Place(a) < Place(b))
  }

  predicate Ordered(rs: seq<Role>, low: nat, high: nat) {
    && (forall i, k | 0 <= i < k < |rs| :: Before(rs[i], rs[k]))
    && (forall i | 0 <= i < |rs| :: low <= Stage(rs[i]) <= high)
  }

  lemma OrderedJoin(xs: seq<Role>, ys: seq<Role>, low: nat, middle: nat, high: nat)
    requires low <= middle <= high && Ordered(xs, low, middle) && Ordered(ys, middle + 1, high)
    ensures Ordered(xs + ys, low, high)
  {
  }

  lemma StepsOrdered(s: ArtifactSpec)
    ensures Ordered(Bundles(s.bundles), 3, 3) && Ordered(Releases(s), 4, 5) && Ordered(UKIBuilds(s), 6, 8)
    ensures Ordered(ISOBuilds(s), 9, 10) && Ordered(ParallelSteps(s), 11, 13)
  {
    BundlesOrdered(s.bundles);
    hide Ordered, Bundles, UKIBuilds, ParallelSteps;
    TwoOrdered(If(s.osRelease != "", [OSRelease]), If(s.kairosRelease != "", [KairosRelease]), 4);
    TwoOrdered(If(s.iso || s.netboot, [BuildISO]), If(s.netboot, [Netboot]), 9);
    ImagesOrdered(s);
    UKIsOrdered(s);
  }

  lemma BundlesOrdered(images: seq<string>)
    ensures Ordered(Bundles(images), 3, 3)
  {
  }

  lemma ImportsOrdered(n: nat)
    ensures Ordered(Imports(n), 0, 0)
  {
  }

  lemma NothingOrdered(low: nat, high: nat)
    ensures Ordered([], low, high)
  {
  }

  /** At most one step of a stage, then at most one of the next. */
  lemma TwoOrdered(x: seq<Role>, y: seq<Role>, low: nat)
    requires |x| <= 1 && |y| <= 1
    requires (x != [] ==> Stage(x[0]) == low) && (y != [] ==> Stage(y[0]) == low + 1)
    ensures Ordered(x, low, low) && Ordered(y, low + 1, low + 1) && Ordered(x + y, low, low + 1)
  {
  }

  lemma ImagesOrdered(s: ArtifactSpec)
    ensures Ordered(ParallelSteps(s), 11, 13)
  {
    hide Ordered;
    var x, y, z := If(s.cloudImage, [CloudImage]), If(s.azureImage, [AzureImage]), If(s.gceImage, [GCEImage]);
    TwoOrdered(x, y, 11);
    TwoOrdered(y, z, 12);
    OrderedJoin(x + y, z, 11, 12, 13);
  }

  lemma UKIsOrdered(s: ArtifactSpec)
    ensures Ordered(UKIBuilds(s), 6, 8)
  {
    hide Ordered;
    NothingOrdered(6, 8);
    if s.uki.Some? {
      var u := s.uki.value;
      var x, y, z := If(u.iso, [BuildUKI(UKIISO)]), If(u.container, [BuildUKI(UKIContainer)]), If(u.efi, [BuildUKI(UKIEFI)]);
      TwoOrdered(x, y, 6);
      TwoOrdered(y, z, 7);
      OrderedJoin(x + y, z, 6, 7, 8);
    }
  }

  lemma SequentialOrdered(a: OSArtifact, s: ArtifactSpec)
    ensures Ordered(SequentialSteps(a, s), 2, 10)
  {
    hide Bundles, Releases, UKIBuilds, ISOBuilds, ParallelSteps, Ordered, HasRef;
    StepsOrdered(s);
    var x := If(HasRef(a.image), [ImageExtractor]);
    TwoOrdered(x, [], 2);
    OrderedJoin(x, Bundles(s.bundles), 2, 2, 3);
    OrderedJoin(x + Bundles(s.bundles), Releases(s), 2, 3, 5);
    OrderedJoin(x + Bundles(s.bundles) + Releases(s), UKIBuilds(s), 2, 5, 8);
    OrderedJoin(x + Bundles(s.bundles) + Releases(s) + UKIBuilds(s), ISOBuilds(s), 2, 8, 10);
  }

  /**
   * The plan is in order and repeats nothing: importers, stage 1, then the builders, with the
   * ISO before the netboot files that are taken from it.
   */
  lemma PlanIsOrdered(a: OSArtifact)
    ensures Ordered(Plan(a), 0, 13)
    ensures forall i, k | 0 <= i < k < |Plan(a)| :: Plan(a)[i] != Plan(a)[k]
  {
    var importers := Imports(|a.importers|);
    var stage := [if a.image.ref != "" then PullBaseImage else BuildahBuild];
    var steps := if a.artifacts.Some? then SequentialSteps(a, a.artifacts.value) else [];
    ImportsOrdered(|a.importers|);
    TwoOrdered(stage, [], 1);
    NothingOrdered(2, 10);
    NothingOrdered(11, 13);
    if a.artifacts.Some? {
      SequentialOrdered(a, a.artifacts.value);
      StepsOrdered(a.artifacts.value);
    }
    OrderedJoin(importers, stage, 0, 0, 1);
    OrderedJoin(importers + stage, steps, 0, 1, 10);
    OrderedJoin(importers + stage + steps, MainPlan(a), 0, 10, 13);
  }

  /**
   * rootfsVolume takes the place of the rootfs volume in every mount: the redirected mount keeps
   * its path, nothing else changes, and no container is left with a mount of "rootfs".
   */
  lemma RootfsIsRedirected(a: OSArtifact, ms: seq<Mount>, i: nat)
    requires ValidSpec(a) && i < |ms| && RootfsVolume(a) != ""
    ensures |FinalMounts(a, ms)| == |ms| && FinalMounts(a, ms)[i].name != ROOTFS
    ensures FinalMounts(a, ms)[i] ==
            if ms[i].name == ROOTFS then Mount(RootfsVolume(a), ms[i].path, "rootfs") else ms[i]
    ensures FinalMounts(a, ms)[i] == FinalMount(a, ms[i])
  {
    UserName(a, RootfsVolume(a));
  }
}
