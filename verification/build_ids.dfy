/** Build IDs and names: the pure string functions of internal/k8s/deployments.go. A char stands
    for one byte, as Go's len and slicing count them. */
module BuildIds {
  import opened Api

  const MAX_BUILD_ID_LEN := 63
  const RESOURCE_NAME_SEPARATOR := "-"

  predicate Alphanumeric(c: char) {
    'a' <= c <= 'z' || 'A' <= c <= 'Z' || '0' <= c <= '9'
  }

  predicate Separator(c: char) {
    c == '-' || c == '.' || c == '_'
  }

  predicate LabelChar(c: char) {
    Alphanumeric(c) || Separator(c)
  }

  predicate NameChar(c: char) {
    Alphanumeric(c) || c == '-'
  }

  predicate LabelChars(s: string) {
    forall i :: 0 <= i < |s| ==> LabelChar(s[i])
  }

  /** "Syntax and character set" of Kubernetes "Labels and Selectors". */
  predicate ValidLabelValue(s: string) {
    |s| <= 63 && ValidButForLength(s)
  }

  predicate ValidButForLength(s: string) {
    LabelChars(s) && (s != "" ==> Alphanumeric(s[0]) && Alphanumeric(s[|s| - 1]))
  }

  function TruncateString(s: string, n: int): string {
    if |s| > n && n > 0 then s[..n] else s
  }

  /** Replaces each maximal run of characters outside keep by one dash. */
  function ReplaceRuns(s: string, keep: char -> bool): (r: string)
    ensures |r| <= |s|
  {
    if s == "" then "" else Head(s, keep) + ReplaceRuns(s[1..], keep)
  }

  /** What the first character of s becomes: itself, or the dash if its run ends with it. */
  function Head(s: string, keep: char -> bool): (r: string)
    requires s != ""
    ensures |r| <= 1
  {
    if keep(s[0]) then [s[0]] else if |s| > 1 && !keep(s[1]) then "" else "-"
  }

  /** The separators at the front of s dropped. */
  function TrimLeft(s: string): (r: string)
    ensures |r| <= |s| && r == s[|s| - |r|..]
    ensures r != "" ==> !Separator(r[0])
  {
    if s != "" && Separator(s[0]) then TrimLeft(s[1..]) else s
  }

  function TrimRight(s: string): (r: string)
    ensures |r| <= |s| && r == s[..|r|]
    ensures r != "" ==> !Separator(r[|r| - 1])
  {
    if s != "" && Separator(s[|s| - 1]) then TrimRight(s[..|s| - 1]) else s
  }

  function CleanBuildID(s: string): string {
    TrimRight(TrimLeft(ReplaceRuns(s, LabelChar)))
  }

  function CleanStringForDNS(s: string): string {
    ReplaceRuns(s, NameChar)
  }

  function ComputeVersionedDeploymentName(baseName: string, buildID: string): string {
    CleanStringForDNS(baseName + RESOURCE_NAME_SEPARATOR + buildID)
  }

  function ComputeWorkerDeploymentName(namespace: string, name: string): (r: string)
    ensures r != ""
  {
    namespace + "/" + name
  }

  /** How the image reference parser reads an image. */
  datatype ImageReference = Tagged(tag: string) | Digested(hex: string) | Named(path: string) | Unparsed

  function ComputeImagePrefix(img: string, parsed: ImageReference, maxLen: int): string {
    TruncateString(match parsed
                   case Tagged(tag) => tag
                   case Digested(hex) => hex
                   case Named(path) => path
                   case Unparsed => img, maxLen)
  }

  /** What ComputeBuildID reads of a resource; image is None without containers. The hashes of the
      pod template are four and ten letters or digits. */
  datatype BuildIDInput = BuildIDInput(custom: string, image: Option<string>, parsed: ImageReference,
      shortHash: string, longHash: string)

  predicate Encoded(hash: string, n: nat) {
    |hash| == n && forall i :: 0 <= i < n ==> Alphanumeric(hash[i])
  }

  function ComputeBuildID(w: BuildIDInput): string {
    var cleaned := CleanBuildID(w.custom);
    if w.custom != "" && cleaned != "" then
      TruncateString(cleaned, MAX_BUILD_ID_LEN)
    else if w.image.Some? && w.image.value != "" then
      var suffix := RESOURCE_NAME_SEPARATOR + w.shortHash;
      CleanBuildID(ComputeImagePrefix(w.image.value, w.parsed, MAX_BUILD_ID_LEN - |suffix|) + suffix)
    else
      w.longHash
  }

  lemma {:induction false} ReplacedIsLegal(s: string)
    ensures LabelChars(ReplaceRuns(s, LabelChar))
  {
    if s != "" {
      ReplacedIsLegal(s[1..]);
    }
  }

  lemma {:induction false} ReplaceKeepsLegal(s: string, keep: char -> bool)
    requires forall i :: 0 <= i < |s| ==> keep(s[i])
    ensures ReplaceRuns(s, keep) == s
  {
    if s != "" {
      ReplaceKeepsLegal(s[1..], keep);
    }
  }

  /** No run reaches across a character that is kept. */
  lemma {:induction false} ReplaceSplits(s: string, t: string, keep: char -> bool)
    requires t != "" && keep(t[0])
    ensures ReplaceRuns(s + t, keep) == ReplaceRuns(s, keep) + ReplaceRuns(t, keep)
  {
    if s == "" {
      assert s + t == t;
    } else {
      ReplaceSplits(s[1..], t, keep);
      HeadSplits(s, t, keep);
      ConcatAssociates(Head(s, keep), ReplaceRuns(s[1..], keep), ReplaceRuns(t, keep));
    }
  }

  lemma {:induction false} HeadSplits(s: string, t: string, keep: char -> bool)
    requires s != "" && t != "" && keep(t[0])
    ensures ReplaceRuns(s + t, keep) == Head(s, keep) + ReplaceRuns(s[1..] + t, keep)
  {
    assert (s + t)[1..] == s[1..] + t;
    assert (s + t)[0] == s[0] && (|s| > 1 ==> (s + t)[1] == s[1]) && (|s| == 1 ==> (s + t)[1] == t[0]);
  }

  lemma {:induction false} ReplaceSplitsAfter(s: string, t: string, keep: char -> bool)
    requires s != "" ==> keep(s[|s| - 1])
    ensures ReplaceRuns(s + t, keep) == ReplaceRuns(s, keep) + ReplaceRuns(t, keep)
  {
    if s == "" {
      assert s + t == t;
    } else {
      ReplaceSplitsAfter(s[1..], t, keep);
      assert (s + t)[1..] == s[1..] + t;
      assert Head(s + t, keep) == Head(s, keep);
      ConcatAssociates(Head(s, keep), ReplaceRuns(s[1..], keep), ReplaceRuns(t, keep));
    }
  }

  lemma {:induction false} RunIsReplaced(run: string, keep: char -> bool)
    requires run != "" && forall i :: 0 <= i < |run| ==> !keep(run[i])
    ensures ReplaceRuns(run, keep) == "-"
  {
    if |run| > 1 {
      RunIsReplaced(run[1..], keep);
    }
  }

  /** A maximal run outside keep becomes one dash, and what stands around it is cleaned by itself. */
  lemma {:induction false} RunBecomesOneDash(s: string, run: string, t: string, keep: char -> bool)
    requires run != "" && forall i :: 0 <= i < |run| ==> !keep(run[i])
    requires (s != "" ==> keep(s[|s| - 1])) && (t != "" ==> keep(t[0]))
    ensures ReplaceRuns(s + run + t, keep) == ReplaceRuns(s, keep) + "-" + ReplaceRuns(t, keep)
  {
    RunIsReplaced(run, keep);
    ReplaceSplitsAfter(s, run, keep);
    if t == "" {
      assert s + run + t == s + run;
    } else {
      ReplaceSplits(s + run, t, keep);
    }
  }

  lemma {:induction false} ConcatAssociates(a: string, b: string, c: string)
    ensures a + (b + c) == (a + b) + c
  {
  }

  lemma {:induction false} PartIsLegal(s: string, from: nat, part: string)
    requires LabelChars(s) && from + |part| <= |s| && part == s[from..from + |part|]
    ensures LabelChars(part)
  {
    forall i | 0 <= i < |part|
      ensures LabelChar(part[i])
    {
      assert part[i] == s[from + i];
    }
  }

  lemma {:induction false} TrimmedIsLegal(s: string)
    requires LabelChars(s)
    ensures LabelChars(TrimLeft(s)) && LabelChars(TrimRight(s))
  {
    PartIsLegal(s, |s| - |TrimLeft(s)|, TrimLeft(s));
    PartIsLegal(s, 0, TrimRight(s));
  }

  lemma {:induction false} TrimmedEnds(left: string)
    requires LabelChars(left) && (left != "" ==> !Separator(left[0]))
    ensures var r := TrimRight(left); r != "" ==> Alphanumeric(r[0]) && Alphanumeric(r[|r| - 1])
  {
    var r := TrimRight(left);
    if r != "" {
      var n := |r|;
      assert r[0] == left[0] && r[n - 1] == left[n - 1];
      assert LabelChar(left[0]) && LabelChar(left[n - 1]);
    }
  }

  /** A cleaned ID is a label value but for its length. */
  lemma {:induction false} CleanedIsLegal(s: string)
    ensures |CleanBuildID(s)| <= |s| && ValidButForLength(CleanBuildID(s))
  {
    ReplacedIsLegal(s);
    TrimmedBothEnds(ReplaceRuns(s, LabelChar));
  }

  lemma {:induction false} TrimmedBothEnds(s: string)
    requires LabelChars(s)
    ensures |TrimRight(TrimLeft(s))| <= |s| && ValidButForLength(TrimRight(TrimLeft(s)))
  {
    TrimmedIsLegal(s);
    TrimmedIsLegal(TrimLeft(s));
    TrimmedEnds(TrimLeft(s));
  }

  lemma {:induction false} CleaningTwiceIsCleaningOnce(s: string)
    ensures CleanBuildID(CleanBuildID(s)) == CleanBuildID(s)
  {
    CleanedIsLegal(s);
    CleanIsClean(CleanBuildID(s));
  }

  lemma {:induction false} CleanIsClean(s: string)
    requires ValidButForLength(s)
    ensures CleanBuildID(s) == s
  {
    ReplaceKeepsLegal(s, LabelChar);
    NothingToTrim(s);
  }

  lemma {:induction false} NothingToTrim(s: string)
    requires s != "" ==> !Separator(s[0]) && !Separator(s[|s| - 1])
    ensures TrimLeft(s) == s && TrimRight(s) == s
  {
  }

  predicate EndsIn(s: string, suffix: string) {
    |s| >= |suffix| && s[|s| - |suffix|..] == suffix
  }

  /** Trimming stops at the letters and digits a string ends with. */
  lemma {:induction false} CleanKeepsSuffix(prefix: string, hash: string)
    requires hash != "" && Encoded(hash, |hash|)
    ensures EndsIn(CleanBuildID(prefix + hash), hash)
  {
    var replaced := ReplaceRuns(prefix + hash, LabelChar);
    ReplaceKeepsSuffix(prefix, hash, LabelChar);
    TrimLeftKeepsSuffix(replaced, hash);
    NothingToTrimRight(TrimLeft(replaced), hash);
  }

  lemma {:induction false} NothingToTrimRight(s: string, hash: string)
    requires hash != "" && Encoded(hash, |hash|)
    requires EndsIn(s, hash)
    ensures TrimRight(s) == s
  {
    assert s[|s| - 1] == hash[|hash| - 1];
  }

  lemma {:induction false} ReplaceKeepsSuffix(prefix: string, hash: string, keep: char -> bool)
    requires hash != "" && forall i :: 0 <= i < |hash| ==> keep(hash[i])
    ensures EndsIn(ReplaceRuns(prefix + hash, keep), hash)
  {
    ReplaceSplits(prefix, hash, keep);
    ReplaceKeepsLegal(hash, keep);
  }

  lemma {:induction false} TrimLeftKeepsSuffix(s: string, hash: string)
    requires hash != "" && Encoded(hash, |hash|)
    requires EndsIn(s, hash)
    ensures EndsIn(TrimLeft(s), hash)
  {
    if Separator(s[0]) {
      assert |s| > |hash| by {
        assert s[|s| - |hash|] == hash[0];
      }
      assert s[1..][|s| - 1 - |hash|..] == hash;
      TrimLeftKeepsSuffix(s[1..], hash);
    }
  }

  /** Cutting s at 63 characters leaves no separator at the end. */
  predicate CutsCleanly(s: string) {
    |s| <= MAX_BUILD_ID_LEN || Alphanumeric(s[MAX_BUILD_ID_LEN - 1])
  }

  lemma {:induction false} TruncatedIsLabelIff(s: string)
    requires s != "" && LabelChars(s) && Alphanumeric(s[0]) && Alphanumeric(s[|s| - 1])
    ensures TruncateString(s, MAX_BUILD_ID_LEN) != ""
    ensures ValidLabelValue(TruncateString(s, MAX_BUILD_ID_LEN)) <==> CutsCleanly(s)
  {
    var r := TruncateString(s, MAX_BUILD_ID_LEN);
    assert r[0] == s[0] && r[|r| - 1] == s[|r| - 1];
    forall i | 0 <= i < |r|
      ensures LabelChar(r[i])
    {
      assert r[i] == s[i];
    }
  }

  lemma {:induction false} CustomIsTruncated(w: BuildIDInput)
    requires w.custom != "" && CleanBuildID(w.custom) != ""
    ensures ComputeBuildID(w) == TruncateString(CleanBuildID(w.custom), MAX_BUILD_ID_LEN)
  {
  }

  /** A custom build ID becomes a valid label exactly when cutting it does not leave a separator at the
      end; the source trims before it cuts. */
  lemma {:induction false} CustomBuildIDIsLabelIff(w: BuildIDInput)
    requires w.custom != "" && CleanBuildID(w.custom) != ""
    ensures ComputeBuildID(w) != ""
    ensures ValidLabelValue(ComputeBuildID(w)) <==> CutsCleanly(CleanBuildID(w.custom))
  {
    CustomIsTruncated(w);
    CleanedIsLegal(w.custom);
    TruncatedIsLabelIff(CleanBuildID(w.custom));
  }

  /** Every resource with a custom build ID the CRD admits, or none, gets a non-empty valid label. */
  lemma {:induction false} BuildIDIsLabel(w: BuildIDInput)
    requires |w.custom| <= MAX_BUILD_ID_LEN
    requires Encoded(w.shortHash, 4) && Encoded(w.longHash, 10)
    ensures ComputeBuildID(w) != "" && ValidLabelValue(ComputeBuildID(w))
    ensures CleanBuildID(w.custom) == "" && w.image in {None, Some("")} ==> ComputeBuildID(w) == w.longHash
  {
    if w.custom != "" && CleanBuildID(w.custom) != "" {
      CleanedIsLegal(w.custom);
      CustomBuildIDIsLabelIff(w);
    } else if w.image.Some? && w.image.value != "" {
      ImageBuildIDEndsInHash(w);
    }
  }

  predicate FromImage(w: BuildIDInput) {
    (w.custom == "" || CleanBuildID(w.custom) == "") && w.image.Some? && w.image.value != ""
  }

  /** What precedes the short hash before cleaning. */
  function ImagePart(w: BuildIDInput): (r: string)
    requires w.image.Some?
    ensures |r| <= MAX_BUILD_ID_LEN - 4
  {
    ComputeImagePrefix(w.image.value, w.parsed, MAX_BUILD_ID_LEN - 5) + RESOURCE_NAME_SEPARATOR
  }

  lemma {:induction false} ImageIDIsCleaned(w: BuildIDInput)
    requires FromImage(w) && |w.shortHash| == 4
    ensures ComputeBuildID(w) == CleanBuildID(ImagePart(w) + w.shortHash)
  {
    ConcatAssociates(ComputeImagePrefix(w.image.value, w.parsed, MAX_BUILD_ID_LEN - 5), RESOURCE_NAME_SEPARATOR,
        w.shortHash);
  }

  lemma {:induction false} CleanedWithHash(part: string, hash: string)
    requires |part| <= MAX_BUILD_ID_LEN - 4 && Encoded(hash, 4)
    ensures ValidLabelValue(CleanBuildID(part + hash)) && EndsIn(CleanBuildID(part + hash), hash)
  {
    CleanedIsLegal(part + hash);
    CleanKeepsSuffix(part, hash);
  }

  /** An image-derived ID is a label and ends in its short hash, whatever the image string holds. */
  lemma {:induction false} ImageBuildIDEndsInHash(w: BuildIDInput)
    requires FromImage(w) && Encoded(w.shortHash, 4)
    ensures ValidLabelValue(ComputeBuildID(w)) && EndsIn(ComputeBuildID(w), w.shortHash)
  {
    ImageIDIsCleaned(w);
    CleanedWithHash(ImagePart(w), w.shortHash);
  }

  /** A tag, a digest, or else the path or the image string shows in the build ID, up to 58 characters
      of it, if it reads as a label. */
  lemma {:induction false} ImageIDShowsItsText(w: BuildIDInput, text: string)
    requires FromImage(w) && Encoded(w.shortHash, 4)
    requires w.parsed in {Tagged(text), Digested(text), Named(text)} || (w.parsed.Unparsed? && w.image == Some(text))
    requires text != "" && ValidButForLength(text)
    ensures ComputeBuildID(w) == Shortened(text) + "-" + w.shortHash
  {
    ImageIDIsCleaned(w);
    ShortenedIsLegal(text);
    assert ImagePart(w) == Shortened(text) + "-";
    HashedIsClean(Shortened(text), w.shortHash);
  }

  function Shortened(text: string): string {
    if |text| <= 58 then text else text[..58]
  }

  lemma {:induction false} ShortenedIsLegal(text: string)
    requires text != "" && ValidButForLength(text)
    ensures Shortened(text) != "" && LabelChars(Shortened(text)) && Alphanumeric(Shortened(text)[0])
  {
    PartIsLegal(text, 0, Shortened(text));
  }

  lemma {:induction false} HashedIsClean(shown: string, hash: string)
    requires shown != "" && LabelChars(shown) && Alphanumeric(shown[0]) && Encoded(hash, 4)
    ensures CleanBuildID(shown + "-" + hash) == shown + "-" + hash
  {
    var s := shown + "-" + hash;
    assert s[0] == shown[0] && s[|s| - 1] == hash[3];
    assert LabelChars(hash) && LabelChars("-");
    JoinedIsLegal(shown, "-");
    JoinedIsLegal(shown + "-", hash);
    CleanIsClean(s);
  }

  lemma {:induction false} JoinedIsLegal(s: string, t: string)
    requires LabelChars(s) && LabelChars(t)
    ensures LabelChars(s + t)
  {
  }

  lemma {:induction false} DifferentHashesDifferentIDs(w: BuildIDInput, v: BuildIDInput)
    requires FromImage(w) && FromImage(v) && Encoded(w.shortHash, 4) && Encoded(v.shortHash, 4)
    requires w.shortHash != v.shortHash
    ensures ComputeBuildID(w) != ComputeBuildID(v)
  {
    ImageBuildIDEndsInHash(w);
    ImageBuildIDEndsInHash(v);
    EndsDiffer(ComputeBuildID(w), w.shortHash, ComputeBuildID(v), v.shortHash);
  }

  lemma {:induction false} EndsDiffer(s: string, a: string, t: string, b: string)
    requires EndsIn(s, a) && EndsIn(t, b) && |a| == |b| && a != b
    ensures s != t
  {
  }

  // Names of Deployments

  /** Namespaces of Kubernetes have no slash, so no two resources share a worker deployment. */
  lemma {:induction false} WorkerDeploymentsAreOwn(namespace: string, name: string, namespace': string, name': string)
    requires '/' !in namespace && '/' !in namespace'
    ensures ComputeWorkerDeploymentName(namespace, name) == ComputeWorkerDeploymentName(namespace', name')
            <==> namespace == namespace' && name == name'
  {
    var r, r' := ComputeWorkerDeploymentName(namespace, name), ComputeWorkerDeploymentName(namespace', name');
    if r == r' {
      assert r[|namespace|] == '/' && r[|namespace'|] == '/';
      assert forall i :: 0 <= i < |namespace| ==> r[i] == namespace[i];
      assert forall i :: 0 <= i < |namespace'| ==> r[i] == namespace'[i];
      assert namespace == r[..|namespace|] && name == r[|namespace| + 1..];
      assert namespace' == r[..|namespace'|] && name' == r[|namespace'| + 1..];
    }
  }

  /** Two versions of one resource get the same Deployment name exactly when their build IDs do once
      every run of dots and underscores has become a dash. */
  lemma {:induction false} NamesCoincideIff(baseName: string, b: string, c: string)
    ensures ComputeVersionedDeploymentName(baseName, b) == ComputeVersionedDeploymentName(baseName, c)
            <==> CleanStringForDNS(b) == CleanStringForDNS(c)
  {
    NameSplits(baseName, b);
    NameSplits(baseName, c);
    var prefix := CleanStringForDNS(baseName) + RESOURCE_NAME_SEPARATOR;
    assert (prefix + CleanStringForDNS(b))[|prefix|..] == CleanStringForDNS(b);
    assert (prefix + CleanStringForDNS(c))[|prefix|..] == CleanStringForDNS(c);
  }

  lemma {:induction false} NameSplits(baseName: string, b: string)
    ensures ComputeVersionedDeploymentName(baseName, b) == CleanStringForDNS(baseName) + RESOURCE_NAME_SEPARATOR
            + CleanStringForDNS(b)
  {
    var tail := RESOURCE_NAME_SEPARATOR + b;
    assert baseName + RESOURCE_NAME_SEPARATOR + b == baseName + tail;
    ReplaceSplits(baseName, tail, NameChar);
    assert tail[1..] == b;
  }

  /** Build IDs without dots and underscores keep their names apart. */
  lemma {:induction false} DashedIDsHaveOwnNames(baseName: string, b: string, c: string)
    requires forall i :: 0 <= i < |b| ==> NameChar(b[i])
    requires forall i :: 0 <= i < |c| ==> NameChar(c[i])
    ensures ComputeVersionedDeploymentName(baseName, b) == ComputeVersionedDeploymentName(baseName, c) <==> b == c
  {
    NamesCoincideIff(baseName, b, c);
    ReplaceKeepsLegal(b, NameChar);
    ReplaceKeepsLegal(c, NameChar);
  }

  /** Image-derived IDs do so whenever their short hashes differ. */
  lemma {:induction false} DifferentHashesDifferentNames(baseName: string, w: BuildIDInput, v: BuildIDInput)
    requires FromImage(w) && FromImage(v) && Encoded(w.shortHash, 4) && Encoded(v.shortHash, 4)
    requires w.shortHash != v.shortHash
    ensures ComputeVersionedDeploymentName(baseName, ComputeBuildID(w)) != ComputeVersionedDeploymentName(baseName,
              ComputeBuildID(v))
  {
    NamesCoincideIff(baseName, ComputeBuildID(w), ComputeBuildID(v));
    CleanedEndsInHash(w);
    CleanedEndsInHash(v);
    EndsDiffer(CleanStringForDNS(ComputeBuildID(w)), w.shortHash, CleanStringForDNS(ComputeBuildID(v)), v.shortHash);
  }

  lemma {:induction false} CleanedEndsInHash(w: BuildIDInput)
    requires FromImage(w) && Encoded(w.shortHash, 4)
    ensures EndsIn(CleanStringForDNS(ComputeBuildID(w)), w.shortHash)
  {
    var id := ComputeBuildID(w);
    ImageBuildIDEndsInHash(w);
    assert id == id[..|id| - 4] + w.shortHash;
    ReplaceKeepsSuffix(id[..|id| - 4], w.shortHash, NameChar);
  }

  predicate LowerAlphanumeric(c: char) {
    'a' <= c <= 'z' || '0' <= c <= '9'
  }

  /** A name without dots that the API server accepts: a subdomain name as in RFC 1123. */
  predicate AdmissibleName(s: string) {
    && 0 < |s| <= 253
    && (forall i :: 0 <= i < |s| ==> LowerAlphanumeric(s[i]) || s[i] == '-')
    && LowerAlphanumeric(s[0]) && LowerAlphanumeric(s[|s| - 1])
  }

  /** A name that the API server and the webhook accept for the resource; it may have dots. */
  predicate ResourceName(s: string) {
    && 0 < |s| <= 63
    && (forall i :: 0 <= i < |s| ==> LowerAlphanumeric(s[i]) || s[i] == '-' || s[i] == '.')
    && LowerAlphanumeric(s[0])
  }

  predicate NoCapitals(s: string) {
    forall i :: 0 <= i < |s| ==> !('A' <= s[i] <= 'Z')
  }

  predicate NameChars(s: string) {
    forall i :: 0 <= i < |s| ==> NameChar(s[i])
  }

  lemma {:induction false} CleanedNameChars(s: string)
    ensures NameChars(CleanStringForDNS(s))
  {
    if s != "" {
      CleanedNameChars(s[1..]);
    }
  }

  /** Cleaning neither adds nor removes capitals. */
  lemma {:induction false} CleaningKeepsCapitals(s: string)
    ensures NoCapitals(CleanStringForDNS(s)) <==> NoCapitals(s)
  {
    if s != "" {
      CleaningKeepsCapitals(s[1..]);
      JoinedCapitals(Head(s, NameChar), CleanStringForDNS(s[1..]));
      JoinedCapitals([s[0]], s[1..]);
      assert s == [s[0]] + s[1..];
    }
  }

  lemma {:induction false} JoinedCapitals(a: string, b: string)
    ensures NoCapitals(a + b) <==> NoCapitals(a) && NoCapitals(b)
  {
    if NoCapitals(a + b) {
      assert forall i :: 0 <= i < |a| ==> a[i] == (a + b)[i];
      assert forall i :: 0 <= i < |b| ==> b[i] == (a + b)[|a| + i];
    }
  }

  /** A cleaned name is admissible if it begins and ends with a lower-case letter or digit and is not
      too long, unless it has a capital. */
  lemma {:induction false} AdmissibleIffNoCapitals(s: string)
    requires 0 < |s| <= 253 && NameChars(s) && LowerAlphanumeric(s[0]) && Alphanumeric(s[|s| - 1])
    ensures AdmissibleName(s) <==> NoCapitals(s)
  {
    if NoCapitals(s) {
      forall i | 0 <= i < |s|
        ensures LowerAlphanumeric(s[i]) || s[i] == '-'
      {
        assert NameChar(s[i]);
      }
    }
  }

  lemma {:induction false} CleanKeepsEnds(s: string)
    requires s != "" && NameChar(s[0])
    ensures var r := CleanStringForDNS(s); r != "" && r[0] == s[0]
    ensures NameChar(s[|s| - 1]) ==> CleanStringForDNS(s)[|CleanStringForDNS(s)| - 1] == s[|s| - 1]
  {
    if NameChar(s[|s| - 1]) {
      var last := [s[|s| - 1]];
      assert s == s[..|s| - 1] + last;
      ReplaceKeepsSuffix(s[..|s| - 1], last, NameChar);
    }
  }

  /** The API server accepts the name of a version's Deployment exactly if the build ID, a label value,
      has no capital letter. Cleaning leaves capitals alone. */
  lemma {:induction false} NameIsAdmissibleIff(baseName: string, b: string)
    requires ResourceName(baseName) && ValidLabelValue(b) && b != ""
    ensures AdmissibleName(ComputeVersionedDeploymentName(baseName, b)) <==> NoCapitals(b)
  {
    var front, back := CleanStringForDNS(baseName), CleanStringForDNS(b);
    NameSplits(baseName, b);
    CleanKeepsEnds(baseName);
    CleanKeepsEnds(b);
    CleanedNameChars(baseName);
    CleanedNameChars(b);
    NameOfParts(front, back);
    CleaningKeepsCapitals(baseName);
    CleaningKeepsCapitals(b);
  }

  lemma {:induction false} NameOfParts(front: string, back: string)
    requires 0 < |front| <= 63 && 0 < |back| <= 63 && NameChars(front) && NameChars(back)
    requires LowerAlphanumeric(front[0]) && Alphanumeric(back[|back| - 1])
    ensures AdmissibleName(front + RESOURCE_NAME_SEPARATOR + back) <==> NoCapitals(front) && NoCapitals(back)
  {
    var s := front + RESOURCE_NAME_SEPARATOR + back;
    JoinedCapitals(front + RESOURCE_NAME_SEPARATOR, back);
    JoinedCapitals(front, RESOURCE_NAME_SEPARATOR);
    assert s[0] == front[0] && s[|s| - 1] == back[|back| - 1];
    AdmissibleIffNoCapitals(s);
  }

  /** V1 is a build ID the schema admits; its Deployment's name is not, whatever the resource is called. */
  lemma {:induction false} CapitalIsInadmissible(baseName: string)
    ensures ValidLabelValue("V1") && !AdmissibleName(ComputeVersionedDeploymentName(baseName, "V1"))
  {
    NameSplits(baseName, "V1");
    ReplaceKeepsLegal("V1", NameChar);
    var front := CleanStringForDNS(baseName) + RESOURCE_NAME_SEPARATOR;
    assert (front + "V1")[|front|] == 'V';
  }

  /** Custom IDs that the schema admits may share a name: v1.0 and v1-0 do, and the second one's
      Deployment is refused while the first one's exists. */
  lemma {:induction false} DottedAndDashedShareAName(baseName: string)
    ensures ValidLabelValue("v1.0") && ValidLabelValue("v1-0")
    ensures ComputeVersionedDeploymentName(baseName, "v1.0") == ComputeVersionedDeploymentName(baseName, "v1-0")
  {
    DottedIsCleaned();
    DashedIsClean();
    NamesCoincideIff(baseName, "v1.0", "v1-0");
  }

  lemma {:induction false} DashedIsClean()
    ensures CleanStringForDNS("v1-0") == "v1-0"
  {
    ReplaceKeepsLegal("v1-0", NameChar);
  }

  lemma {:induction false} DottedIsCleaned()
    ensures CleanStringForDNS("v1.0") == "v1-0"
  {
    ReplaceSplits("v1.", "0", NameChar);
    ReplaceSplits("v", "1.", NameChar);
    assert "v1.0" == "v1." + "0" && "v1." == "v" + "1.";
    assert "1."[1..] == "." && "."[1..] == "";
    ReplaceKeepsLegal("0", NameChar);
    ReplaceKeepsLegal("v", NameChar);
    assert ReplaceRuns(".", NameChar) == "-" + ReplaceRuns("", NameChar);
  }
}
