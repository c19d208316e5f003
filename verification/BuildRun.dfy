/** Running the builder Pod: which files are in /artifacts when its containers are done. */
module BuildRun {
  import opened OSArtifactSpec
  import opened BuilderPod
  import opened BuilderPlan

  /** Files by kind and basename; a build step writes the file that its arguments name. */
  datatype File =
    | Tar(base: string)
    | Iso(base: string)
    | IsoChecksum(base: string)
    | UKIImage(base: string)
    | UKIFiles(base: string)
    | NetbootFiles(base: string)
    | Raw(base: string)
    | Vhd(base: string)
    | GCETar(base: string)

  /** ukiArtifactName */
  function UKIArtifactName(a: OSArtifact): string {
    if a.nameOverride.uki != "" then ArtifactNameFor(a, KindUKI) else ArtifactNameFor(a, KindUKI) + "-uki"
  }

  /** isoBasenameForNetboot: the unsigned ISO. */
  function IsoBasenameForNetboot(a: OSArtifact): string {
    ArtifactNameFor(a, KindISO)
  }

  /** pruneSourceISO */
  function PruneSourceISO(a: OSArtifact): bool {
    if a.artifacts.None? || a.artifacts.value.iso then false
    else
      var s := a.artifacts.value;
      !(s.uki.Some? && s.uki.value.iso && UKIArtifactName(a) == IsoBasenameForNetboot(a))
  }

  function Step(a: OSArtifact, role: Role, files: set<File>): set<File> {
    match role
    case PullBaseImage => files + {Tar(ArtifactNameFor(a, KindBase))}
    case BuildahBuild => files + {Tar(ArtifactNameFor(a, KindBase))}
    case BuildUKI(UKIISO) => files + {Iso(UKIArtifactName(a))}
    case BuildUKI(UKIContainer) => files + {UKIImage(UKIArtifactName(a))}
    case BuildUKI(UKIEFI) => files + {UKIFiles(UKIArtifactName(a))}
    case BuildISO => files + {Iso(ArtifactNameFor(a, KindISO)), IsoChecksum(ArtifactNameFor(a, KindISO))}
    case Netboot =>
      files + {NetbootFiles(ArtifactNameFor(a, KindNetboot))} -
      if PruneSourceISO(a) then {Iso(IsoBasenameForNetboot(a)), IsoChecksum(IsoBasenameForNetboot(a))} else {}
    case CloudImage => files + {Raw(ArtifactNameFor(a, KindCloud))}
    case AzureImage => files + {Vhd(ArtifactNameFor(a, KindAzure))}
    case GCEImage => files + {GCETar(ArtifactNameFor(a, KindGCE))}
    case _ => files
  }

  function RunSteps(a: OSArtifact, roles: seq<Role>, files: set<File>): set<File> {
    if roles == [] then files
    else Step(a, roles[|roles| - 1], RunSteps(a, roles[..|roles| - 1], files))
  }

  /** A requested ISO, signed or not, of this basename. */
  predicate ISORequested(a: OSArtifact, base: string) {
    a.artifacts.Some? &&
    ((a.artifacts.value.iso && base == ArtifactNameFor(a, KindISO)) ||
     (a.artifacts.value.uki.Some? && a.artifacts.value.uki.value.iso && base == UKIArtifactName(a)))
  }

  /** The container that writes the ISO of this basename. */
  predicate Writes(a: OSArtifact, role: Role, base: string) {
    || (role == BuildISO && base == ArtifactNameFor(a, KindISO))
    || (role == BuildUKI(UKIISO) && base == UKIArtifactName(a))
  }

  predicate Removes(a: OSArtifact, role: Role, base: string) {
    role == Netboot && PruneSourceISO(a) && base == IsoBasenameForNetboot(a)
  }

  /** An ISO is there at the end when it was written, or there before, and not removed after. */
  lemma {:induction false} IsoAfter(a: OSArtifact, roles: seq<Role>, files: set<File>, base: string)
    requires forall i, k | 0 <= i < k < |roles| :: Before(roles[i], roles[k])
    ensures Iso(base) in RunSteps(a, roles, files) <==>
            && (Iso(base) in files || exists r :: r in roles && Writes(a, r, base))
            && !(exists r :: r in roles && Removes(a, r, base))
  {
    hide Step, Writes, Removes, Before;
    if roles != [] {
      var front, last := roles[..|roles| - 1], roles[|roles| - 1];
      IsoAfter(a, front, files, base);
      assert roles == front + [last];
      forall r | r in front ensures Removes(a, r, base) ==> !Writes(a, last, base) {
        var i :| 0 <= i < |front| && front[i] == r;
        WrittenBefore(a, r, last, base);
      }
      StepIso(a, last, RunSteps(a, front, files), base);
      assert last in roles && forall r | r in front :: r in roles;
    }
  }

  lemma StepIso(a: OSArtifact, role: Role, files: set<File>, base: string)
    ensures Iso(base) in Step(a, role, files) <==>
            (Iso(base) in files || Writes(a, role, base)) && !Removes(a, role, base)
  {
  }

  lemma WrittenBefore(a: OSArtifact, r: Role, last: Role, base: string)
    requires Before(r, last)
    ensures Removes(a, r, base) ==> !Writes(a, last, base)
  {
  }

  /**
   * When netboot runs, the ISO it reads is there; when all is done every requested ISO is
   * there, and with netboot the ISO it read stays exactly when it was asked for under any
   * name. This holds whatever /artifacts held before.
   */
  lemma ISOsAtTheEnd(a: OSArtifact, files: set<File>)
    ensures forall base | ISORequested(a, base) :: Iso(base) in RunSteps(a, Plan(a), files)
    ensures a.artifacts.Some? && a.artifacts.value.netboot ==>
              (Iso(IsoBasenameForNetboot(a)) in RunSteps(a, Plan(a), files) <==> ISORequested(a, IsoBasenameForNetboot(a)))
  {
    PlanIsOrdered(a);
    hide Plan, RunSteps;
    forall base | ISORequested(a, base) ensures Iso(base) in RunSteps(a, Plan(a), files) {
      IsoAfter(a, Plan(a), files, base);
      PlanMembers(a, BuildISO);
      PlanMembers(a, BuildUKI(UKIISO));
      var writer := if a.artifacts.value.iso && base == ArtifactNameFor(a, KindISO) then BuildISO else BuildUKI(UKIISO);
      assert writer in Plan(a) && Writes(a, writer, base);
    }
    if a.artifacts.Some? && a.artifacts.value.netboot {
      PlanMembers(a, Netboot);
      IsoAfter(a, Plan(a), files, IsoBasenameForNetboot(a));
      if !ISORequested(a, IsoBasenameForNetboot(a)) {
        assert Removes(a, Netboot, IsoBasenameForNetboot(a));
      }
    }
  }

  /** What a container leaves behind. */
  predicate Leaves(a: OSArtifact, role: Role, f: File) {
    f in Step(a, role, {})
  }

  /** Only ISOs and their checksums are ever removed: any other file is there when it was there or some container left it. */
  lemma {:induction false} FileAfter(a: OSArtifact, roles: seq<Role>, files: set<File>, f: File)
    requires !f.Iso? && !f.IsoChecksum?
    ensures f in RunSteps(a, roles, files) <==> f in files || exists r | r in roles :: Leaves(a, r, f)
  {
    if roles != [] {
      var front, last := roles[..|roles| - 1], roles[|roles| - 1];
      FileAfter(a, front, files, f);
      assert roles == front + [last];
      assert last in roles && forall r | r in front :: r in roles;
    }
  }

  function Picked(override: string, name: string): string {
    if override != "" then override else name
  }

  /** The files, ISOs apart, that a build of this artifact is for, by what its spec asks for and how it names them. */
  predicate AskedFor(a: OSArtifact, f: File) {
    f == Tar(a.name) ||
    (a.artifacts.Some? &&
     var s, names := a.artifacts.value, a.nameOverride;
     || (s.cloudImage && f == Raw(Picked(names.cloudImage, a.name)))
     || (s.azureImage && f == Vhd(Picked(names.azureImage, a.name)))
     || (s.gceImage && f == GCETar(Picked(names.gceImage, a.name)))
     || (s.netboot && f == NetbootFiles(Picked(names.netboot, a.name)))
     || (s.uki.Some? && s.uki.value.container && f == UKIImage(Picked(names.uki, a.name + "-uki")))
     || (s.uki.Some? && s.uki.value.efi && f == UKIFiles(Picked(names.uki, a.name + "-uki"))))
  }

  lemma LeftIsAskedFor(a: OSArtifact, r: Role, f: File)
    requires Requested(a, r) && Leaves(a, r, f) && !f.Iso? && !f.IsoChecksum?
    ensures AskedFor(a, f)
  {
  }

  lemma AskedForIsLeft(a: OSArtifact, f: File) returns (r: Role)
    requires AskedFor(a, f)
    ensures Requested(a, r) && Leaves(a, r, f)
  {
    r := match f
         case Tar(_) => if a.image.ref != "" then PullBaseImage else BuildahBuild
         case Raw(_) => CloudImage
         case Vhd(_) => AzureImage
         case GCETar(_) => GCEImage
         case NetbootFiles(_) => Netboot
         case UKIImage(_) => BuildUKI(UKIContainer)
         case _ => BuildUKI(UKIEFI);
  }

  /** Besides ISOs the build leaves exactly what was asked for, each file under its own name; and all ISOs asked for. */
  lemma FilesAtTheEnd(a: OSArtifact, files: set<File>, f: File)
    ensures !f.Iso? && !f.IsoChecksum? ==> (f in RunSteps(a, Plan(a), files) <==> f in files || AskedFor(a, f))
    ensures a.artifacts.Some? && a.artifacts.value.iso ==>
              Iso(Picked(a.nameOverride.iso, a.name)) in RunSteps(a, Plan(a), files)
    ensures a.artifacts.Some? && a.artifacts.value.uki.Some? && a.artifacts.value.uki.value.iso ==>
              Iso(Picked(a.nameOverride.uki, a.name + "-uki")) in RunSteps(a, Plan(a), files)
  {
    ISOsAtTheEnd(a, files);
    hide Plan, RunSteps, Requested, Leaves;
    if !f.Iso? && !f.IsoChecksum? {
      FileAfter(a, Plan(a), files, f);
      if r :| r in Plan(a) && Leaves(a, r, f) {
        PlanMembers(a, r);
        LeftIsAskedFor(a, r, f);
      }
      if AskedFor(a, f) {
        var r := AskedForIsLeft(a, f);
        PlanMembers(a, r);
      }
    }
  }

  /** Whatever was there before, the ISO that netboot reads has been written when it is netboot's turn. */
  lemma NetbootFindsItsISO(a: OSArtifact, files: set<File>)
    ensures forall i | 0 <= i < |Plan(a)| && Plan(a)[i] == Netboot ::
              Iso(IsoBasenameForNetboot(a)) in RunSteps(a, Plan(a)[..i], files)
  {
    hide Plan, RunSteps;
    forall i | 0 <= i < |Plan(a)| && Plan(a)[i] == Netboot
      ensures Iso(IsoBasenameForNetboot(a)) in RunSteps(a, Plan(a)[..i], files)
    {
      PlanIsOrdered(a);
      PlanMembers(a, Netboot);
      PlanMembers(a, BuildISO);
      var k :| 0 <= k < |Plan(a)| && Plan(a)[k] == BuildISO;
      var front := Plan(a)[..i];
      assert !Before(Netboot, BuildISO);
      assert k < i && front[k] == BuildISO;
      forall r | r in front ensures r != Netboot {
        var j :| 0 <= j < |front| && front[j] == r;
        assert Plan(a)[j] != Plan(a)[i];
      }
      assert BuildISO in front && Writes(a, BuildISO, IsoBasenameForNetboot(a));
      IsoAfter(a, front, files, IsoBasenameForNetboot(a));
    }
  }

  /** The main containers run side by side: whichever of two goes first, the files are the same. */
  lemma ImagesCommute(a: OSArtifact, x: Role, y: Role, files: set<File>)
    requires x.CloudImage? || x.AzureImage? || x.GCEImage?
    requires y.CloudImage? || y.AzureImage? || y.GCEImage?
    ensures Step(a, x, Step(a, y, files)) == Step(a, y, Step(a, x, files))
  {
  }

  /**
   * Validation lets two requested ISOs share a file name in exactly two cases: the uki name
   * overridden to the artifact's own name, or the iso name overridden to the default uki name.
   */
  lemma SharedISOName(a: OSArtifact)
    requires ValidSpec(a) && a.artifacts.Some? && a.artifacts.value.uki.Some? && a.artifacts.value.uki.value.iso
    requires a.artifacts.value.iso || a.artifacts.value.netboot
    requires a.name != ""
    ensures UKIArtifactName(a) == ArtifactNameFor(a, KindISO) <==>
            || (a.nameOverride.uki == a.name && a.nameOverride.iso == "")
            || (a.nameOverride.uki == "" && a.nameOverride.iso == a.name + "-uki")
  {
    assert a.name + "-uki" != a.name by { assert |a.name + "-uki"| == |a.name| + 4; }
  }
}
