/** Boot IDs: internal/bootid/bootid.go. */
module BootIds {
  import opened Wrappers

  datatype PodPhase = PodPending | PodRunning | PodSucceeded | PodFailed | PodUnknown

  /** `terminated` holds the termination message once the container has ended. */
  datatype ContainerStatus = ContainerStatus(name: string, terminated: Option<string>)

  /** A Pod of an upgrade Job. */
  datatype UpgradePod = UpgradePod(phase: PodPhase, containers: seq<ContainerStatus>)

  const REPORTER := "boot-id-reporter"

  predicate IsHex(c: char) {
    '0' <= c <= '9' || 'a' <= c <= 'f' || 'A' <= c <= 'F'
  }

  /** The canonical 8-4-4-4-12 form. */
  predicate Valid(s: string) {
    && |s| == 36
    && forall i | 0 <= i < 36 :: if i == 8 || i == 13 || i == 18 || i == 23 then s[i] == '-' else IsHex(s[i])
  }

  /** Unicode white space, as Go's strings.TrimSpace removes it. */
  predicate IsSpace(c: char) {
    || '\t' <= c <= '\r' || c == ' ' || c == '\U{85}' || c == '\U{A0}' || c == '\U{1680}'
    || '\U{2000}' <= c <= '\U{200A}' || c == '\U{2028}' || c == '\U{2029}' || c == '\U{202F}'
    || c == '\U{205F}' || c == '\U{3000}'
  }

  function TrimLeft(s: string): string {
    if s != "" && IsSpace(s[0]) then TrimLeft(s[1..]) else s
  }

  function TrimRight(s: string): string {
    if s != "" && IsSpace(s[|s| - 1]) then TrimRight(s[..|s| - 1]) else s
  }

  function TrimSpace(s: string): string {
    TrimRight(TrimLeft(s))
  }

  predicate AllHex(s: string) {
    forall i | 0 <= i < |s| :: IsHex(s[i])
  }

  /** The five groups of hexadecimal digits. */
  predicate Groups(s: string, a: string, b: string, c: string, d: string, e: string) {
    && s == a + "-" + b + "-" + c + "-" + d + "-" + e
    && |a| == 8 && |b| == 4 && |c| == 4 && |d| == 4 && |e| == 12
    && AllHex(a) && AllHex(b) && AllHex(c) && AllHex(d) && AllHex(e)
  }

  lemma ValidMeaning(s: string)
    ensures Valid(s) <==> exists a, b, c, d, e :: Groups(s, a, b, c, d, e)
  {
    if Valid(s) { assert Groups(s, s[..8], s[9..13], s[14..18], s[19..23], s[24..]); }
    if a, b, c, d, e :| Groups(s, a, b, c, d, e) {
      assert forall i | 0 <= i < 8 :: s[i] == a[i];
      assert forall i | 9 <= i < 13 :: s[i] == b[i - 9];
      assert forall i | 14 <= i < 18 :: s[i] == c[i - 14];
      assert forall i | 19 <= i < 23 :: s[i] == d[i - 19];
      assert forall i | 24 <= i < 36 :: s[i] == e[i - 24];
    }
  }

  predicate AllSpace(s: string) {
    forall i | 0 <= i < |s| :: IsSpace(s[i])
  }

  lemma {:induction false} TrimLeftMeaning(s: string)
    ensures |TrimLeft(s)| <= |s| && s == s[..|s| - |TrimLeft(s)|] + TrimLeft(s) && AllSpace(s[..|s| - |TrimLeft(s)|])
    ensures TrimLeft(s) != "" ==> !IsSpace(TrimLeft(s)[0])
  {
    if s != "" && IsSpace(s[0]) {
      TrimLeftMeaning(s[1..]);
      var n := |s| - |TrimLeft(s)|;
      assert s[..n] == [s[0]] + s[1..][..n - 1];
    }
  }

  lemma {:induction false} TrimRightMeaning(s: string)
    ensures TrimRight(s) <= s && forall i | |TrimRight(s)| <= i < |s| :: IsSpace(s[i])
    ensures TrimRight(s) != "" ==> !IsSpace(TrimRight(s)[|TrimRight(s)| - 1])
  {
    hide IsSpace;
    if s != "" && IsSpace(s[|s| - 1]) { TrimRightMeaning(s[..|s| - 1]); }
  }

  lemma {:induction false} TrimLeftDrops(front: string, s: string)
    requires AllSpace(front) && (s != "" ==> !IsSpace(s[0]))
    ensures TrimLeft(front + s) == s
  {
    if front == "" {
      assert front + s == s;
    } else {
      assert (front + s)[1..] == front[1..] + s;
      TrimLeftDrops(front[1..], s);
    }
  }

  lemma {:induction false} TrimRightDrops(s: string, back: string)
    requires AllSpace(back) && (s != "" ==> !IsSpace(s[|s| - 1]))
    ensures TrimRight(s + back) == s
  {
    if back == "" {
      assert s + back == s;
    } else {
      assert (s + back)[..|s + back| - 1] == s + back[..|back| - 1];
      TrimRightDrops(s, back[..|back| - 1]);
    }
  }

  /** `id` with nothing but white space around it. */
  predicate Padded(s: string, front: string, id: string, back: string) {
    s == front + id + back && AllSpace(front) && AllSpace(back)
  }

  lemma PaddedIsTrimmed(s: string, id: string)
    requires Valid(id)
    ensures TrimSpace(s) == id <==> exists front, back :: Padded(s, front, id, back)
  {
    EndsAreNotSpace(id);
    TrimmedPads(s);
    hide Valid, TrimSpace, IsSpace;
    if front, back :| Padded(s, front, id, back) { PadsTrimmed(s, front, id, back); }
  }

  lemma EndsAreNotSpace(id: string)
    requires Valid(id)
    ensures id != "" && !IsSpace(id[0]) && !IsSpace(id[|id| - 1])
  {
  }

  lemma TrimmedPads(s: string)
    ensures exists front, back :: Padded(s, front, TrimSpace(s), back)
  {
    hide IsSpace, TrimLeft, TrimRight;
    TrimLeftMeaning(s);
    TrimRightMeaning(TrimLeft(s));
    var front, back := s[..|s| - |TrimLeft(s)|], TrimLeft(s)[|TrimSpace(s)|..];
    assert s == front + TrimSpace(s) + back;
    assert Padded(s, front, TrimSpace(s), back);
  }

  lemma PadsTrimmed(s: string, front: string, id: string, back: string)
    requires Padded(s, front, id, back) && id != "" && !IsSpace(id[0]) && !IsSpace(id[|id| - 1])
    ensures TrimSpace(s) == id
  {
    hide IsSpace, TrimLeft, TrimRight;
    assert s == front + (id + back);
    TrimLeftDrops(front, id + back);
    TrimRightDrops(id, back);
  }

  /**
   * A container reports a boot ID exactly when it is the reporter, has ended, and its message is that ID, apart from
   * white space around it.
   */
  lemma ContainerReportMeaning(c: ContainerStatus, id: string)
    requires id != ""
    ensures ContainerReport(c) == id <==>
              && Valid(id) && c.name == "boot-id-reporter" && c.terminated.Some?
              && exists front, back :: Padded(c.terminated.value, front, id, back)
  {
    if Valid(id) && c.terminated.Some? { PaddedIsTrimmed(c.terminated.value, id); }
    hide TrimSpace;
  }

  /** What one container status contributes: a boot ID, or "" . */
  function ContainerReport(c: ContainerStatus): string {
    if c.name == REPORTER && c.terminated.Some? && Valid(TrimSpace(c.terminated.value))
    then TrimSpace(c.terminated.value)
    else ""
  }

  function FirstReport(containers: seq<ContainerStatus>): string {
    if containers == [] then ""
    else if ContainerReport(containers[0]) != "" then ContainerReport(containers[0])
    else FirstReport(containers[1..])
  }

  function PodReport(pod: UpgradePod): string {
    if pod.phase == PodSucceeded then FirstReport(pod.containers) else ""
  }

  function FromJobPods(pods: seq<UpgradePod>): string {
    if pods == [] then ""
    else if PodReport(pods[0]) != "" then PodReport(pods[0])
    else FromJobPods(pods[1..])
  }

  /** `id` is reported by a succeeded Pod's reporter container. */
  predicate Reports(pod: UpgradePod, id: string) {
    && pod.phase == PodSucceeded
    && exists c | c in pod.containers :: ContainerReport(c) == id
  }

  lemma {:induction false} FirstReportSound(containers: seq<ContainerStatus>)
    ensures FirstReport(containers) != "" ==>
              Valid(FirstReport(containers)) && exists c | c in containers :: ContainerReport(c) == FirstReport(containers)
    ensures FirstReport(containers) == "" ==> forall c | c in containers :: ContainerReport(c) == ""
  {
    if containers != [] {
      FirstReportSound(containers[1..]);
      assert containers == [containers[0]] + containers[1..];
      if ContainerReport(containers[0]) != "" {
        assert containers[0] in containers;
      } else if FirstReport(containers) != "" {
        var c :| c in containers[1..] && ContainerReport(c) == FirstReport(containers);
        assert c in containers;
      }
    }
  }

  /**
   * FromJobPods answers with the report of the first succeeded Pod that has one, and
   * with "" exactly when no succeeded Pod has one; Pods of failed attempts never count.
   */
  lemma {:induction false} FromJobPodsMeaning(pods: seq<UpgradePod>)
    ensures FromJobPods(pods) == "" <==>
              forall p, c | p in pods && p.phase == PodSucceeded && c in p.containers :: ContainerReport(c) == ""
    ensures FromJobPods(pods) != "" ==>
              && Valid(FromJobPods(pods))
              && exists i | 0 <= i < |pods| ::
                   && Reports(pods[i], FromJobPods(pods))
                   && forall h | 0 <= h < i :: PodReport(pods[h]) == ""
  {
    if pods != [] {
      FromJobPodsMeaning(pods[1..]);
      FirstReportSound(pods[0].containers);
      assert pods == [pods[0]] + pods[1..];
      if PodReport(pods[0]) != "" {
        assert Reports(pods[0], FromJobPods(pods));
        var c :| c in pods[0].containers && ContainerReport(c) == FromJobPods(pods);
        assert pods[0] in pods;
      } else if FromJobPods(pods) != "" {
        var i :| 0 <= i < |pods[1..]| && Reports(pods[1..][i], FromJobPods(pods)) &&
                 forall h | 0 <= h < i :: PodReport(pods[1..][h]) == "";
        forall h | 0 <= h < i + 1 ensures PodReport(pods[h]) == "" {
          if h > 0 { assert pods[h] == pods[1..][h - 1]; }
        }
        assert Reports(pods[i + 1], FromJobPods(pods));
      } else {
        forall p, c | p in pods && p.phase == PodSucceeded && c in p.containers ensures ContainerReport(c) == "" {
          if p == pods[0] {} else { assert p in pods[1..]; }
        }
      }
    }
  }
}
