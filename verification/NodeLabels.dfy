/** The node labeler: cmd/node-labeler/labeler.go. */
module NodeLabels {
  import opened Wrappers

  const PREFIX := "kairos.io/"
  const MAX_LABEL := 63

  predicate AlnumChar(c: char) {
    'a' <= c <= 'z' || 'A' <= c <= 'Z' || '0' <= c <= '9'
  }

  predicate LabelChar(c: char) {
    AlnumChar(c) || c == '-' || c == '_' || c == '.'
  }

  predicate Edge(c: char) {
    c == '-' || c == '_' || c == '.'
  }

  /** What Kubernetes takes as the value of a label. */
  predicate ValidLabelValue(s: string) {
    && |s| <= MAX_LABEL
    && (forall c | c in s :: LabelChar(c))
    && (s != "" ==> AlnumChar(s[0]) && AlnumChar(s[|s| - 1]))
  }

  function ReplaceInvalid(s: string): string {
    seq(|s|, i requires 0 <= i < |s| => if LabelChar(s[i]) then s[i] else '-')
  }

  function TrimFront(s: string): string {
    if s != "" && Edge(s[0]) then TrimFront(s[1..]) else s
  }

  function TrimBack(s: string): string {
    if s != "" && Edge(s[|s| - 1]) then TrimBack(s[..|s| - 1]) else s
  }

  /** strings.Trim(s, "-_.") */
  function Trim(s: string): string {
    TrimBack(TrimFront(s))
  }

  function SanitizeLabelValue(s: string): string {
    var t := Trim(ReplaceInvalid(s));
    if |t| > MAX_LABEL then Trim(t[..MAX_LABEL]) else t
  }

  lemma {:induction false} TrimFrontMeaning(s: string)
    ensures |TrimFront(s)| <= |s| && TrimFront(s) == s[|s| - |TrimFront(s)|..]
    ensures TrimFront(s) != "" ==> !Edge(TrimFront(s)[0])
    ensures forall i | 0 <= i < |s| - |TrimFront(s)| :: Edge(s[i])
  {
    if s != "" && Edge(s[0]) {
      TrimFrontMeaning(s[1..]);
      var n := |s| - |TrimFront(s)|;
      assert s[1..][n - 1..] == s[n..];
      forall i | 0 <= i < n ensures Edge(s[i]) {
        if i > 0 { assert s[i] == s[1..][i - 1]; }
      }
    }
  }

  lemma {:induction false} TrimBackMeaning(s: string)
    ensures TrimBack(s) <= s
    ensures TrimBack(s) != "" ==> !Edge(TrimBack(s)[|TrimBack(s)| - 1])
    ensures forall i | |TrimBack(s)| <= i < |s| :: Edge(s[i])
  {
    if s != "" && Edge(s[|s| - 1]) { TrimBackMeaning(s[..|s| - 1]); }
  }

  lemma TrimIsClean(s: string)
    requires forall c | c in s :: LabelChar(c)
    ensures |Trim(s)| <= |s| && forall c | c in Trim(s) :: LabelChar(c)
    ensures Trim(s) != "" ==> AlnumChar(Trim(s)[0]) && AlnumChar(Trim(s)[|Trim(s)| - 1])
  {
    var f := TrimFront(s);
    TrimFrontMeaning(s);
    TrimBackMeaning(f);
    assert forall c | c in f :: c in s;
    assert forall c | c in Trim(s) :: c in f;
    if Trim(s) != "" { assert Trim(s)[0] in s && Trim(s)[|Trim(s)| - 1] in s; }
  }

  /** Whatever the input, the result is a label value. */
  lemma SanitizedIsValid(s: string)
    ensures ValidLabelValue(SanitizeLabelValue(s)) && |SanitizeLabelValue(s)| <= 63
  {
    var r := ReplaceInvalid(s);
    assert forall c | c in r :: LabelChar(c);
    TrimIsClean(r);
    var t := Trim(r);
    if |t| > MAX_LABEL {
      assert forall c | c in t[..MAX_LABEL] :: c in t;
      TrimIsClean(t[..MAX_LABEL]);
    }
  }

  /** `r` is what is between `lo` and `hi` of the input, with '-' for what a label value cannot hold. */
  predicate Stretch(s: string, r: string, lo: nat, hi: nat) {
    && lo <= hi <= |s| && |r| == hi - lo
    && forall i | 0 <= i < |r| :: r[i] == if LabelChar(s[lo + i]) then s[lo + i] else '-'
  }

  lemma TrimMeaning(s: string) returns (lo: nat, hi: nat)
    requires forall c | c in s :: LabelChar(c)
    ensures lo <= hi <= |s| && Trim(s) == s[lo..hi]
    ensures forall i | 0 <= i < lo || hi <= i < |s| :: !AlnumChar(s[i])
    ensures Trim(s) != "" ==> AlnumChar(s[lo])
  {
    var f := TrimFront(s);
    TrimFrontMeaning(s);
    TrimBackMeaning(f);
    lo, hi := |s| - |f|, |s| - |f| + |Trim(s)|;
    assert f == s[lo..];
    forall i | hi <= i < |s| ensures !AlnumChar(s[i]) { assert s[i] == f[i - lo]; }
    if Trim(s) != "" { assert s[lo] == f[0] && s[lo] in s; }
  }

  /**
   * The result reaches from the first letter or digit of the input to the last one, or to the last one that fits into
   * 63 characters; what is in between stays, with '-' for what a label value cannot hold.
   */
  lemma SanitizedMeaning(s: string)
    ensures var r := SanitizeLabelValue(s);
            && (r == "" <==> forall c | c in s :: !AlnumChar(c))
            && exists lo: nat, hi: nat :: Stretch(s, r, lo, hi)
                 && (forall i | 0 <= i < lo :: !AlnumChar(s[i]))
                 && (forall i | hi <= i < |s| && i < lo + 63 :: !AlnumChar(s[i]))
  {
    var q, r := ReplaceInvalid(s), SanitizeLabelValue(s);
    Replaced(s);
    ByIndex(s);
    TrimIsClean(q);
    var lo, hi := TrimMeaning(q);
    var t := Trim(q);
    if |t| > MAX_LABEL {
      var cut := t[..MAX_LABEL];
      assert forall c | c in cut :: c in t;
      var lo', hi' := TrimMeaning(cut);
      hide ReplaceInvalid, Trim;
      assert AlnumChar(cut[0]) && lo' == 0;
      assert cut[0..hi'] == q[lo..lo + hi'];
      forall i | lo + hi' <= i < |s| && i < lo + MAX_LABEL ensures !AlnumChar(s[i]) { assert q[i] == cut[i - lo]; }
      StretchOf(s, lo, lo + hi');
    } else {
      hide ReplaceInvalid, Trim;
      StretchOf(s, lo, hi);
    }
  }

  lemma Replaced(s: string)
    ensures var q := ReplaceInvalid(s);
            && |q| == |s| && (forall c | c in q :: LabelChar(c))
            && forall i | 0 <= i < |s| :: AlnumChar(q[i]) <==> AlnumChar(s[i])
  {
  }

  lemma StretchOf(s: string, lo: nat, hi: nat)
    requires lo <= hi <= |s|
    ensures Stretch(s, ReplaceInvalid(s)[lo..hi], lo, hi)
  {
  }

  lemma ByIndex(s: string)
    ensures (forall c | c in s :: !AlnumChar(c)) <==> forall i | 0 <= i < |s| :: !AlnumChar(s[i])
  {
  }

  /** A label value is left as it is, so sanitizing twice is sanitizing once. */
  lemma ValidIsKept(s: string)
    requires ValidLabelValue(s)
    ensures SanitizeLabelValue(s) == s
  {
    forall i | 0 <= i < |s| ensures LabelChar(s[i]) { assert s[i] in s; }
    assert ReplaceInvalid(s) == s;
  }

  lemma SanitizeTwice(s: string)
    ensures SanitizeLabelValue(SanitizeLabelValue(s)) == SanitizeLabelValue(s)
  {
    SanitizedIsValid(s);
    ValidIsKept(SanitizeLabelValue(s));
  }

  predicate Managed(k: string) {
    PREFIX <= k
  }

  /** Set every new value, and null every managed key that has none. */
  function NullablePatch(newValues: map<string, string>, existing: map<string, string>): map<string, Option<string>> {
    map k | k in newValues.Keys + existing.Keys && (k in newValues || Managed(k)) ::
      if k in newValues then Some(newValues[k]) else None
  }

  method ToNullablePatch(newValues: map<string, string>, existing: map<string, string>)
    returns (result: map<string, Option<string>>)
    ensures result == NullablePatch(newValues, existing)
  {
    result := map[];
    var keys := newValues.Keys;
    while keys != {}
      invariant keys <= newValues.Keys
      invariant result == map k | k in newValues && k !in keys :: Some(newValues[k])
      decreases keys
    {
      var k :| k in keys;
      keys := keys - {k};
      result := result[k := Some(newValues[k])];
    }
    keys := existing.Keys;
    while keys != {}
      invariant keys <= existing.Keys
      invariant result.Keys == newValues.Keys + set k | k in existing && k !in keys && Managed(k)
      invariant forall k | k in result :: result[k] == if k in newValues then Some(newValues[k]) else None
      decreases keys
    {
      var k :| k in keys;
      keys := keys - {k};
      if PREFIX <= k {
        if k !in newValues { result := result[k := None]; }
      }
    }
    assert result.Keys == NullablePatch(newValues, existing).Keys;
  }

  /** JSON documents without numbers, booleans and arrays, which the patch never touches. */
  datatype Json = Null | Text(text: string) | Object(members: map<string, Json>)

  /** MergePatch of RFC 7396, section 2. An absent target is no object. */
  function MergePatch(target: Json, patch: Json): Json
    decreases patch
  {
    if !patch.Object? then patch
    else
      var members := if target.Object? then target.members else map[];
      Object(map k | k in members.Keys + patch.members.Keys && !(k in patch.members && patch.members[k] == Null) ::
               if k in patch.members
               then MergePatch(if k in members then members[k] else Null, patch.members[k])
               else members[k])
  }

  function TextMap(values: map<string, string>): Json {
    Object(map k | k in values :: Text(values[k]))
  }

  function PatchMap(patch: map<string, Option<string>>): Json {
    Object(map k | k in patch :: if patch[k].Some? then Text(patch[k].value) else Null)
  }

  /** The map after the patch: new values are set, other managed keys are gone, the rest stays. */
  function Synced(newValues: map<string, string>, existing: map<string, string>): map<string, string> {
    map k | k in newValues.Keys + existing.Keys && (k in newValues || !Managed(k)) ::
      if k in newValues then newValues[k] else existing[k]
  }

  lemma LeafReplaces(target: Json, text: string)
    ensures MergePatch(target, Text(text)) == Text(text)
  {
  }

  /** The stored values, when the document has the field; a document without it stores none. */
  predicate Stores(metadata: Json, field: string, values: map<string, string>) {
    && metadata.Object?
    && if field in metadata.members then metadata.members[field] == TextMap(values) else values == map[]
  }

  lemma Merged(target: Json, patch: Json)
    requires patch.Object?
    ensures var r, members := MergePatch(target, patch), if target.Object? then target.members else map[];
            && r.Object?
            && (forall k :: k in r.members <==>
                  if k in patch.members then patch.members[k] != Null else k in members)
            && (forall k | k in r.members ::
                  r.members[k] == if k in patch.members
                                  then MergePatch(if k in members then members[k] else Null, patch.members[k])
                                  else members[k])
  {
  }

  /** What the patch holds under one key, and what should come of it. */
  lemma PatchAt(newValues: map<string, string>, existing: map<string, string>, k: string)
    ensures var patch, stored, wanted := PatchMap(NullablePatch(newValues, existing)).members, TextMap(existing).members,
                                       TextMap(Synced(newValues, existing)).members;
            && (k in wanted <==> if k in patch then patch[k] != Null else k in stored)
            && (k in newValues ==> k in patch && k in wanted && patch[k] == wanted[k] == Text(newValues[k]))
            && (k in wanted && k !in newValues ==> k !in patch && k in stored && wanted[k] == stored[k])
  {
  }

  lemma {:induction false} PatchSyncs(newValues: map<string, string>, existing: map<string, string>, target: Json)
    requires target == TextMap(existing) || (existing == map[] && !target.Object?)
    ensures MergePatch(target, PatchMap(NullablePatch(newValues, existing))) == TextMap(Synced(newValues, existing))
  {
    var patch := PatchMap(NullablePatch(newValues, existing));
    var result := MergePatch(target, patch);
    var wanted := TextMap(Synced(newValues, existing));
    var members := if target.Object? then target.members else map[];
    assert members == TextMap(existing).members;
    hide *;
    Merged(target, patch);
    forall k ensures k in wanted.members <==> k in result.members
             ensures k in wanted.members ==> result.members[k] == wanted.members[k]
    {
      PatchAt(newValues, existing, k);
      if k in newValues { LeafReplaces(if k in members then members[k] else Null, newValues[k]); }
    }
    assert result.members == wanted.members;
  }

  /** patchNode: the body of the PATCH request; empty maps are left out of it. */
  function NodePatch(labels: map<string, Option<string>>, annotations: map<string, Option<string>>): Json {
    Object(map["metadata" := Object(
      (if labels == map[] then map[] else map["labels" := PatchMap(labels)]) +
      (if annotations == map[] then map[] else map["annotations" := PatchMap(annotations)]))])
  }

  /** patchNode on the stored Node: nothing is sent when there is nothing to change. */
  function PatchNode(node: Json, labels: map<string, Option<string>>, annotations: map<string, Option<string>>): Json {
    if labels == map[] && annotations == map[] then node else MergePatch(node, NodePatch(labels, annotations))
  }

  lemma EmptyPatch(newValues: map<string, string>, existing: map<string, string>)
    requires NullablePatch(newValues, existing) == map[]
    ensures Synced(newValues, existing) == existing && newValues == map[]
  {
    forall k | k in newValues ensures k in NullablePatch(newValues, existing) {
    }
    forall k | k in existing ensures !Managed(k) {
      assert k !in NullablePatch(newValues, existing);
    }
  }

  /** One field of the metadata after the patch. */
  lemma FieldSyncs(metadata: Json, patch: Json, field: string, newValues: map<string, string>, existing: map<string, string>)
    requires Stores(metadata, field, existing) && patch.Object?
    requires var p := NullablePatch(newValues, existing);
             if p == map[] then field !in patch.members
             else field in patch.members && patch.members[field] == PatchMap(p)
    ensures Stores(MergePatch(metadata, patch), field, Synced(newValues, existing))
  {
    var p := NullablePatch(newValues, existing);
    if p == map[] {
      EmptyPatch(newValues, existing);
    } else {
      PatchSyncs(newValues, existing, if field in metadata.members then metadata.members[field] else Null);
    }
  }

  /** Members that differ at most in the given fields. */
  ghost predicate SameBut(a: Json, b: Json, fields: set<string>) {
    && a.Object? && b.Object?
    && forall k | k !in fields ::
         (k in a.members <==> k in b.members) && (k in a.members ==> a.members[k] == b.members[k])
  }

  /**
   * The patch makes the kairos.io/ labels and annotations of the stored Node the new ones
   * and changes nothing else in the whole document.
   */
  lemma NodeSyncs(node: Json, labels: map<string, string>, annotations: map<string, string>,
                  newLabels: map<string, string>, newAnnotations: map<string, string>)
    requires node.Object? && "metadata" in node.members
    requires Stores(node.members["metadata"], "labels", labels)
    requires Stores(node.members["metadata"], "annotations", annotations)
    ensures var r := PatchNode(node, NullablePatch(newLabels, labels), NullablePatch(newAnnotations, annotations));
            && SameBut(r, node, {"metadata"}) && "metadata" in r.members
            && SameBut(r.members["metadata"], node.members["metadata"], {"labels", "annotations"})
            && Stores(r.members["metadata"], "labels", Synced(newLabels, labels))
            && Stores(r.members["metadata"], "annotations", Synced(newAnnotations, annotations))
  {
    var pl, pa := NullablePatch(newLabels, labels), NullablePatch(newAnnotations, annotations);
    if pl == map[] && pa == map[] {
      EmptyPatch(newLabels, labels);
      EmptyPatch(newAnnotations, annotations);
    } else {
      var metadata, patch := node.members["metadata"], NodePatch(pl, pa).members["metadata"];
      assert patch.Object?;
      FieldSyncs(metadata, patch, "labels", newLabels, labels);
      FieldSyncs(metadata, patch, "annotations", newAnnotations, annotations);
      assert MergePatch(node, NodePatch(pl, pa)).members["metadata"] == MergePatch(metadata, patch);
    }
  }

  /** The managed keys of the result are the new ones, all other keys are as before unless set anew. */
  lemma SyncedMeaning(newValues: map<string, string>, existing: map<string, string>, k: string)
    requires forall n | n in newValues :: Managed(n)
    ensures var r := Synced(newValues, existing);
            if "kairos.io/" <= k then (k in r <==> k in newValues) && (k in r ==> r[k] == newValues[k])
            else (k in r <==> k in existing) && (k in r ==> r[k] == existing[k])
  {
  }

  /** A second sync changes nothing, and has nothing left to remove. */
  lemma SecondSyncChangesNothing(newValues: map<string, string>, existing: map<string, string>)
    ensures Synced(newValues, Synced(newValues, existing)) == Synced(newValues, existing)
    ensures forall k | k in NullablePatch(newValues, Synced(newValues, existing)) :: k in newValues
  {
  }
}
