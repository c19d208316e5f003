/** The OSArtifact spec and its validation: api/v1alpha2/osartifact_types.go. */
module OSArtifactSpec {
  import opened Wrappers

  datatype SecretRef = SecretRef(name: string, key: string)

  datatype BuildOptions = BuildOptions(version: string, baseImage: string)

  datatype BuildImage = BuildImage(registry: string, repository: string, tag: string)

  datatype OCISpec = OCISpec(ref: Option<SecretRef>, buildContextVolume: string)

  datatype ImageSpec = ImageSpec(
    ref: string,
    buildOptions: Option<BuildOptions>,
    ociSpec: Option<OCISpec>,
    buildImage: Option<BuildImage>,
    push: bool,
    credentials: Option<SecretRef>,
    caCertificatesVolume: string,
    storageVolume: string)

  datatype UKISpec = UKISpec(iso: bool, container: bool, efi: bool, keysVolume: string)

  datatype ArtifactSpec = ArtifactSpec(
    iso: bool,
    cloudImage: bool,
    azureImage: bool,
    gceImage: bool,
    netboot: bool,
    cloudConfigRef: Option<SecretRef>,
    grubConfig: string,
    bundles: seq<string>,
    osRelease: string,
    kairosRelease: string,
    overlayISOVolume: string,
    overlayRootfsVolume: string,
    uki: Option<UKISpec>,
    volume: string,
    rootfsVolume: string)

  datatype NameOverrides = NameOverrides(
    iso: string,
    cloudImage: string,
    azureImage: string,
    gceImage: string,
    netboot: string,
    uki: string)

  /** Where a volume's content comes from; `UserSource` stands for any source given in spec.volumes. */
  datatype VolumeSource = UserSource(id: nat) | ArtifactsClaim | EmptyDir | ArtifactConfigMap | SecretSource(secret: string)

  datatype Volume = Volume(name: string, source: VolumeSource)

  datatype Mount = Mount(name: string, path: string, subPath: string)

  /** The mounts of an importer are a slice of its own: an array on the heap. */
  datatype Importer = Importer(name: string, mounts: array<Mount>)

  /** `name` is metadata.name. */
  datatype OSArtifact = OSArtifact(
    name: string,
    image: ImageSpec,
    artifacts: Option<ArtifactSpec>,
    volumes: seq<Volume>,
    importers: seq<Importer>,
    nameOverride: NameOverrides)

  datatype Kind = KindISO | KindCloud | KindAzure | KindGCE | KindNetboot | KindUKI | KindBase

  function OverrideFor(o: NameOverrides, kind: Kind): string {
    match kind
    case KindISO => o.iso
    case KindCloud => o.cloudImage
    case KindAzure => o.azureImage
    case KindGCE => o.gceImage
    case KindNetboot => o.netboot
    case KindUKI => o.uki
    case KindBase => ""
  }

  function ArtifactNameFor(a: OSArtifact, kind: Kind): string {
    if OverrideFor(a.nameOverride, kind) != "" then OverrideFor(a.nameOverride, kind) else a.name
  }

  const RESERVED: set<string> := {"artifacts", "rootfs", "config", "ocispec", "cloudconfig"}

  datatype Reason =
    | EmptyVolumeName(index: nat)
    | ReservedVolumeName(name: string)
    | DuplicateVolumeName(name: string)
    | BuildImageWithRef
    | IncompleteBuildImage
    | UnknownVolume(name: string)
    | NothingToBuildFrom
    | NothingToPushTo
    | IncompleteBuildOptions
    | ArtifactsRequired
    | NoArtifactType
    | SharedVolume(name: string)
    | KeysVolumeRequired
    | SameISOName(name: string)

  predicate Names(ref: string, names: set<string>) {
    ref == "" || ref in names
  }

  predicate CompleteBuildImage(b: BuildImage) {
    b.registry != "" && b.repository != "" && b.tag != ""
  }

  predicate UKIRequested(a: ArtifactSpec) {
    a.uki.Some? && (a.uki.value.iso || a.uki.value.container || a.uki.value.efi)
  }

  predicate HasRef(img: ImageSpec) {
    img.ociSpec.Some? && img.ociSpec.value.ref.Some?
  }

  predicate ImageFine(img: ImageSpec, names: set<string>) {
    && (img.buildImage.Some? ==> img.ref == "")
    && (img.buildImage.Some? ==> CompleteBuildImage(img.buildImage.value) || img.buildImage.value == BuildImage("", "", ""))
    && Names(img.caCertificatesVolume, names)
    && (img.ref == "" ==>
          && (img.buildOptions.Some? || HasRef(img))
          && (img.push ==> img.buildImage.Some? && CompleteBuildImage(img.buildImage.value))
          && (img.buildOptions.Some? ==> img.buildOptions.value.version != "" && img.buildOptions.value.baseImage != "")
          && (img.ociSpec.Some? ==> Names(img.ociSpec.value.buildContextVolume, names))
          && Names(img.storageVolume, names))
  }

  predicate ArtifactsFine(s: OSArtifact, a: ArtifactSpec, names: set<string>) {
    && (a.iso || a.cloudImage || a.azureImage || a.gceImage || a.netboot || UKIRequested(a))
    && Names(a.overlayISOVolume, names) && Names(a.overlayRootfsVolume, names)
    && Names(a.volume, names) && Names(a.rootfsVolume, names)
    && (a.volume != "" ==> a.volume != a.rootfsVolume && (s.image.ref == "" ==> a.volume != s.image.storageVolume))
    && (UKIRequested(a) ==> a.uki.value.keysVolume != "" && a.uki.value.keysVolume in names)
    && (a.uki.Some? && a.uki.value.iso && (a.iso || a.netboot) && s.nameOverride.uki != "" ==>
          s.nameOverride.uki != s.nameOverride.iso)
  }

  function VolumeNames(vs: seq<Volume>): set<string> {
    set v | v in vs :: v.name
  }

  predicate VolumesFine(vs: seq<Volume>) {
    && (forall v | v in vs :: v.name != "" && v.name !in RESERVED)
    && (forall i, k | 0 <= i < k < |vs| :: vs[i].name != vs[k].name)
  }

  /** What Validate stands for. */
  predicate ValidSpec(s: OSArtifact) {
    && VolumesFine(s.volumes)
    && ImageFine(s.image, VolumeNames(s.volumes))
    && (s.image.ref != "" ==> s.artifacts.Some?)
    && (s.artifacts.Some? ==> ArtifactsFine(s, s.artifacts.value, VolumeNames(s.volumes)))
  }

  function ImageRef(b: BuildImage): (r: string)
    ensures r != ""
  {
    b.registry + "/" + b.repository + ":" + b.tag
  }

  function ValidateImageSpec(img: ImageSpec, names: set<string>): (r: Option<Reason>)
    ensures r.None? <==> ImageFine(img, names)
  {
    if img.buildImage.Some? && ImageRef(img.buildImage.value) != "" && img.ref != "" then Some(BuildImageWithRef)
    else if img.buildImage.Some?
            && (img.buildImage.value.registry != "" || img.buildImage.value.repository != "" || img.buildImage.value.tag != "")
            && (img.buildImage.value.registry == "" || img.buildImage.value.repository == "" || img.buildImage.value.tag == "")
    then Some(IncompleteBuildImage)
    else if img.caCertificatesVolume != "" && img.caCertificatesVolume !in names
    then Some(UnknownVolume(img.caCertificatesVolume))
    else if img.ref != "" then None
    else if img.buildOptions.None? && !HasRef(img) then Some(NothingToBuildFrom)
    else if img.push && (img.buildImage.None? || !CompleteBuildImage(img.buildImage.value)) then Some(NothingToPushTo)
    else if img.buildOptions.Some? && (img.buildOptions.value.version == "" || img.buildOptions.value.baseImage == "")
    then Some(IncompleteBuildOptions)
    else if img.ociSpec.Some? && img.ociSpec.value.buildContextVolume != ""
            && img.ociSpec.value.buildContextVolume !in names
    then Some(UnknownVolume(img.ociSpec.value.buildContextVolume))
    else if img.storageVolume != "" && img.storageVolume !in names then Some(UnknownVolume(img.storageVolume))
    else None
  }

  method ValidateArtifactVolumeRefs(a: ArtifactSpec, names: set<string>) returns (r: Option<Reason>)
    ensures r.None? <==>
            && Names(a.overlayISOVolume, names) && Names(a.overlayRootfsVolume, names)
            && Names(a.volume, names) && Names(a.rootfsVolume, names)
  {
    var refs := [a.overlayISOVolume, a.overlayRootfsVolume, a.volume, a.rootfsVolume];
    var i := 0;
    while i < |refs|
      invariant 0 <= i <= |refs| && forall k | 0 <= k < i :: Names(refs[k], names)
    {
      if refs[i] != "" && refs[i] !in names { return Some(UnknownVolume(refs[i])); }
      i := i + 1;
    }
    assert Names(refs[0], names) && Names(refs[1], names) && Names(refs[2], names) && Names(refs[3], names);
    r := None;
  }

  function ValidateArtifactAliasing(s: OSArtifact, a: ArtifactSpec): Option<Reason> {
    if a.volume != "" && a.volume == a.rootfsVolume then Some(SharedVolume(a.volume))
    else if s.image.ref == "" && a.volume != "" && a.volume == s.image.storageVolume then Some(SharedVolume(a.volume))
    else None
  }

  method ValidateArtifactSpec(s: OSArtifact, a: ArtifactSpec, names: set<string>) returns (r: Option<Reason>)
    ensures r.None? <==> ArtifactsFine(s, a, names)
  {
    var hasStandard := a.iso || a.cloudImage || a.azureImage || a.gceImage || a.netboot;
    var hasUKI := a.uki.Some? && (a.uki.value.iso || a.uki.value.container || a.uki.value.efi);
    if !hasStandard && !hasUKI { return Some(NoArtifactType); }
    r := ValidateArtifactVolumeRefs(a, names);
    if r.Some? { return; }
    r := ValidateArtifactAliasing(s, a);
    if r.Some? { return; }
    if hasUKI {
      if a.uki.value.keysVolume == "" { return Some(KeysVolumeRequired); }
      if a.uki.value.keysVolume !in names { return Some(UnknownVolume(a.uki.value.keysVolume)); }
    }
    if a.uki.Some? && a.uki.value.iso && (a.iso || a.netboot)
       && s.nameOverride.uki != "" && s.nameOverride.uki == s.nameOverride.iso {
      return Some(SameISOName(s.nameOverride.uki));
    }
    r := None;
  }

  /** The user has a volume of this name. */
  ghost predicate HasVolume(s: OSArtifact, name: string) {
    exists v | v in s.volumes :: v.name == name
  }

  /** What a spec that passes is good for: there is something to build and to build it from, and each volume it refers to. */
  ghost predicate Buildworthy(s: OSArtifact) {
    && (s.image.ref == "" ==> s.image.buildOptions.Some? || (s.image.ociSpec.Some? && s.image.ociSpec.value.ref.Some?))
    && (s.image.ref == "" && s.image.push ==>
          && s.image.buildImage.Some? && s.image.buildImage.value.registry != ""
          && s.image.buildImage.value.repository != "" && s.image.buildImage.value.tag != "")
    && (s.image.ref != "" ==> s.artifacts.Some? && s.image.buildImage.None?)
    && (s.image.caCertificatesVolume != "" ==> HasVolume(s, s.image.caCertificatesVolume))
    && (s.image.ref == "" && s.image.storageVolume != "" ==> HasVolume(s, s.image.storageVolume))
    && (s.image.ref == "" && s.image.ociSpec.Some? && s.image.ociSpec.value.buildContextVolume != "" ==>
          HasVolume(s, s.image.ociSpec.value.buildContextVolume))
    && (s.artifacts.Some? ==>
          var a := s.artifacts.value;
          && (forall name | name in {a.overlayISOVolume, a.overlayRootfsVolume, a.volume, a.rootfsVolume} ::
                name == "" || HasVolume(s, name))
          && (a.iso || a.cloudImage || a.azureImage || a.gceImage || a.netboot ||
              (a.uki.Some? && (a.uki.value.iso || a.uki.value.container || a.uki.value.efi)
               && HasVolume(s, a.uki.value.keysVolume)))
          && (a.volume != "" ==> a.volume != a.rootfsVolume && (s.image.ref == "" ==> a.volume != s.image.storageVolume)))
  }

  lemma ValidIsBuildworthy(s: OSArtifact)
    requires ValidSpec(s)
    ensures Buildworthy(s)
  {
    forall name | name in VolumeNames(s.volumes) ensures HasVolume(s, name) {
      var v :| v in s.volumes && v.name == name;
    }
    hide VolumesFine, VolumeNames, HasVolume;
  }

  method Validate(s: OSArtifact) returns (r: Option<Reason>)
    ensures r.None? <==> ValidSpec(s)
    ensures r.None? ==> Buildworthy(s)
  {
    if ValidSpec(s) { ValidIsBuildworthy(s); }
    hide Buildworthy;
    var volumeNames: set<string> := {};
    var i := 0;
    while i < |s.volumes|
      invariant 0 <= i <= |s.volumes|
      invariant volumeNames == VolumeNames(s.volumes[..i]) && VolumesFine(s.volumes[..i])
    {
      var v := s.volumes[i];
      assert v in s.volumes && s.volumes[..i + 1] == s.volumes[..i] + [v];
      if v.name == "" { return Some(EmptyVolumeName(i)); }
      if v.name in RESERVED { return Some(ReservedVolumeName(v.name)); }
      if v.name in volumeNames {
        RepeatedName(s.volumes, i);
        return Some(DuplicateVolumeName(v.name));
      }
      volumeNames := volumeNames + {v.name};
      i := i + 1;
    }
    assert s.volumes[..i] == s.volumes;
    r := ValidateImageSpec(s.image, volumeNames);
    if r.Some? { return; }
    if s.image.ref != "" && s.artifacts.None? { return Some(ArtifactsRequired); }
    if s.artifacts.Some? { r := ValidateArtifactSpec(s, s.artifacts.value, volumeNames); }
  }

  lemma RepeatedName(vs: seq<Volume>, i: nat)
    requires i < |vs| && vs[i].name in VolumeNames(vs[..i])
    ensures !VolumesFine(vs)
  {
    var v :| v in vs[..i] && v.name == vs[i].name;
    var k :| 0 <= k < i && vs[k] == v;
  }
}
