/**
 * Admission-time defaulting and validation of an AppService
 * (api/v1/appservice_webhook.go).
 *
 * As written, `Default` only edits objects that already carry a deletion
 * timestamp, and the tag it appends is ":least"; `DefaultAsIntended` is the
 * defaulting with the deletion check the way round its comment describes.
 */
module Webhook {
  import opened ApiTypes

  const Colon: char := ':'
  const LeastVersion: string := ":least"
  const DefaultReplicas: int32 := 1

  // ---------------------------------------------------------------------
  // strings.LastIndex

  /** The index of the last `c` in `s`, or -1 when `s` holds none. */
  function LastIndex(s: string, c: char): (i: int)
    ensures -1 <= i < |s|
    ensures i == -1 <==> c !in s
    ensures 0 <= i ==> s[i] == c && c !in s[i + 1..]
  {
    if |s| == 0 then -1
    else if s[|s| - 1] == c then |s| - 1
    else
      var prefix := s[..|s| - 1];
      var i := LastIndex(prefix, c);
      assert forall j :: 0 <= j < |s| ==> s[j] == c ==> j < |prefix| && prefix[j] == c;
      i
  }

  // ---------------------------------------------------------------------
  // isValidVersion: the regular expression ^\d+\.\d+\.\d+$ written out by hand

  /** `\d` in Go's regexp syntax: an ASCII digit only. */
  predicate IsDigit(ch: char) {
    '0' <= ch <= '9'
  }

  predicate AllDigits(s: string) {
    forall i :: 0 <= i < |s| ==> IsDigit(s[i])
  }

  /** `\d+`: a non-empty run of ASCII digits. */
  predicate IsNumber(s: string) {
    |s| > 0 && AllDigits(s)
  }

  /** What the pattern ^\d+\.\d+\.\d+$ denotes: three numbers joined by dots and nothing else. */
  ghost predicate VersionShape(s: string) {
    exists x, y, z :: IsNumber(x) && IsNumber(y) && IsNumber(z) && s == x + "." + y + "." + z
  }

  /** The length of the longest digit prefix of `s`. */
  function DigitRun(s: string): (n: nat)
    ensures n <= |s|
    ensures AllDigits(s[..n])
    ensures n < |s| ==> !IsDigit(s[n])
  {
    if s == [] || !IsDigit(s[0]) then 0
    else
      var n := 1 + DigitRun(s[1..]);
      assert s[..n] == [s[0]] + s[1..][..n - 1];
      n
  }

  /** The matcher: a greedy scan for number, dot, number, dot, number, end of text. */
  predicate IsValidVersion(s: string)
    ensures IsValidVersion(s) ==> |s| >= 5 && IsDigit(s[0]) && IsDigit(s[|s| - 1]) && '.' in s
  {
    var a := DigitRun(s);
    0 < a < |s| && s[a] == '.' &&
    var t := s[a + 1..];
    var b := DigitRun(t);
    0 < b < |t| && t[b] == '.' &&
    var u := t[b + 1..];
    0 < |u| && DigitRun(u) == |u|
  }

  lemma {:induction false} DigitRunStopsAt(x: string, rest: string)
    requires AllDigits(x)
    requires rest == [] || !IsDigit(rest[0])
    ensures DigitRun(x + rest) == |x|
  {
    if x != [] {
      assert (x + rest)[1..] == x[1..] + rest;
      DigitRunStopsAt(x[1..], rest);
    } else {
      assert x + rest == rest;
    }
  }

  lemma VersionScanSplits(s: string)
    requires IsValidVersion(s)
    ensures VersionShape(s)
  {
    var a := DigitRun(s);
    var t := s[a + 1..];
    var b := DigitRun(t);
    var u := t[b + 1..];
    var x, y := s[..a], t[..b];
    assert AllDigits(u) by { assert u[..DigitRun(u)] == u; }
    assert t == y + "." + u by { assert t == t[..b] + [t[b]] + t[b + 1..]; }
    assert s == x + "." + t by { assert s == s[..a] + [s[a]] + s[a + 1..]; }
    assert IsNumber(x) && IsNumber(y) && IsNumber(u);
    assert s == x + "." + y + "." + u;
  }

  /** Scanning `x + "." + rest` for a number stops at the dot after `x`. */
  lemma ScanNumberThenDot(x: string, rest: string)
    requires IsNumber(x)
    ensures DigitRun(x + "." + rest) == |x|
    ensures (x + "." + rest)[|x|] == '.'
    ensures (x + "." + rest)[|x| + 1..] == rest
  {
    assert x + "." + rest == x + ("." + rest);
    DigitRunStopsAt(x, "." + rest);
  }

  lemma VersionShapeScans(s: string)
    requires VersionShape(s)
    ensures IsValidVersion(s)
  {
    var x, y, z :| IsNumber(x) && IsNumber(y) && IsNumber(z) && s == x + "." + y + "." + z;
    var t := y + "." + z;
    assert s == x + "." + t;
    ScanNumberThenDot(x, t);
    ScanNumberThenDot(y, z);
    DigitRunStopsAt(z, []);
    assert z + [] == z;
    assert DigitRun(s) == |x| && s[|x|] == '.' && s[|x| + 1..] == t;
    assert DigitRun(t) == |y| && t[|y|] == '.' && t[|y| + 1..] == z;
  }

  /** The hand-written matcher accepts exactly the strings the pattern denotes. */
  lemma IsValidVersionMatchesPattern(s: string)
    ensures IsValidVersion(s) <==> VersionShape(s)
  {
    if IsValidVersion(s) {
      VersionScanSplits(s);
    }
    if VersionShape(s) {
      VersionShapeScans(s);
    }
  }

  lemma ValidVersionExample()
    ensures IsValidVersion("1.21.0")
  {
    var x, y, z := "1", "21", "0";
    assert IsNumber(x) && IsNumber(y) && IsNumber(z);
    assert "1.21.0" == x + "." + y + "." + z;
    VersionShapeScans("1.21.0");
  }

  lemma InvalidVersionExamples()
    ensures !IsValidVersion("stable")
    ensures !IsValidVersion("least")
    ensures !IsValidVersion("1.21")
  {
    assert !IsDigit('s') && !IsDigit('l');
    assert DigitRun("1.21") == 1 by { DigitRunStopsAt("1", ".21"); }
    assert "1.21"[2..] == "21";
    assert DigitRun("21") == 2 by { DigitRunStopsAt("21", []); assert "21" + [] == "21"; }
  }

  // ---------------------------------------------------------------------
  // Default

  /** The image keeps its tag when the text after its last colon is a version. */
  ghost predicate HasVersionTag(image: string) {
    exists i :: 0 <= i < |image| && image[i] == Colon && Colon !in image[i + 1..] && VersionShape(image[i + 1..])
  }

  /** The image `Default` leaves on an object marked for deletion. */
  function DefaultImage(image: string): (r: string)
    ensures r == image || r == image + LeastVersion
  {
    var lastColon := LastIndex(image, Colon);
    if lastColon == -1 then
      image + LeastVersion
    else
      var versionPart := image[lastColon + 1..];
      if !IsValidVersion(versionPart) then image + LeastVersion else image
  }

  /** The image is left alone exactly when its last colon is followed by a version and nothing else. */
  lemma DefaultImageKeepsOnlyVersionTags(image: string)
    ensures DefaultImage(image) == image <==> HasVersionTag(image)
  {
    var lastColon := LastIndex(image, Colon);
    if lastColon == -1 {
      assert !HasVersionTag(image);
    } else {
      var versionPart := image[lastColon + 1..];
      IsValidVersionMatchesPattern(versionPart);
      if IsValidVersion(versionPart) {
        assert HasVersionTag(image);
      } else {
        assert !HasVersionTag(image);
      }
    }
  }

  /** The last colon of `prefix + ":" + tag` is the one before `tag` when `tag` has none. */
  lemma LastColonBefore(prefix: string, tag: string)
    requires Colon !in tag
    ensures LastIndex(prefix + [Colon] + tag, Colon) == |prefix|
    ensures (prefix + [Colon] + tag)[|prefix| + 1..] == tag
  {
    var s := prefix + [Colon] + tag;
    var i := LastIndex(s, Colon);
    assert s[|prefix|] == Colon;
    assert s[|prefix| + 1..] == tag;
  }

  lemma DefaultUntaggedExample()
    ensures DefaultImage("nginx") == "nginx:least"
  {
    assert Colon !in "nginx";
  }

  lemma DefaultVersionTagExample()
    ensures DefaultImage("nginx:1.21.0") == "nginx:1.21.0"
  {
    LastColonBefore("nginx", "1.21.0");
    assert "nginx" + [Colon] + "1.21.0" == "nginx:1.21.0";
    ValidVersionExample();
  }

  lemma DefaultWordTagExample()
    ensures DefaultImage("nginx:stable") == "nginx:stable:least"
  {
    LastColonBefore("nginx", "stable");
    assert "nginx" + [Colon] + "stable" == "nginx:stable";
    assert !IsDigit('s');
    assert !IsValidVersion("stable");
  }

  /**
   * Defaulting is not idempotent: an image it has just tagged gets tagged
   * again, because "least" is not a version.
   */
  lemma {:induction false} DefaultImageNotIdempotent(image: string)
    requires DefaultImage(image) == image + LeastVersion
    ensures DefaultImage(DefaultImage(image)) == image + LeastVersion + LeastVersion
  {
    var tagged := image + LeastVersion;
    assert tagged[|image|] == Colon;
    assert tagged[|image| + 1..] == "least";
    assert Colon !in "least";
    assert LastIndex(tagged, Colon) == |image|;
    assert DigitRun("least") == 0;
  }

  /** `checkSpecReplicas`: a replica count passes when it is set and not negative. */
  predicate CheckSpecReplicas(i: Option<int32>)
  {
    match i
    case None => false
    case Some(v) => v >= 0
  }

  lemma CheckSpecReplicasExamples()
    ensures !CheckSpecReplicas(None)
    ensures !CheckSpecReplicas(Some(-3))
    ensures CheckSpecReplicas(Some(0))
    ensures CheckSpecReplicas(Some(5))
  {
  }

  /** The replica count `ValidateCreate` and `ValidateUpdate` leave behind. */
  function ValidatedReplicas(i: Option<int32>): (r: Option<int32>)
    ensures CheckSpecReplicas(r)
    ensures CheckSpecReplicas(i) ==> r == i
    ensures !CheckSpecReplicas(i) ==> r == Some(DefaultReplicas)
  {
    if !CheckSpecReplicas(i) then Some(DefaultReplicas) else i
  }

  /** The spec `Default` leaves, as written: only an object marked for deletion has its image defaulted. */
  function DefaultedSpec(app: AppService): AppServiceSpec {
    if IsZeroTime(app.meta.deletionTimestamp) then app.spec
    else app.spec.(image := DefaultImage(app.spec.image))
  }

  /**
   * The defaulting that the comment at the early return describes: an object
   * marked for deletion is left alone and a live object has its image defaulted.
   */
  function IntendedDefaultedSpec(app: AppService): AppServiceSpec {
    if !IsZeroTime(app.meta.deletionTimestamp) then app.spec
    else app.spec.(image := DefaultImage(app.spec.image))
  }

  /** As written, a live object is never defaulted: an untagged `nginx` stays `nginx`. */
  lemma LiveImageIsNeverDefaulted(app: AppService)
    requires IsZeroTime(app.meta.deletionTimestamp)
    ensures DefaultedSpec(app) == app.spec
    ensures app.spec.image == "nginx" ==>
              DefaultedSpec(app).image == "nginx" && IntendedDefaultedSpec(app).image == "nginx:least"
  {
    if app.spec.image == "nginx" {
      DefaultUntaggedExample();
    }
  }

  /**
   * As intended, a live object keeps its image exactly when the image carries
   * a version tag, an object marked for deletion is left alone, and no other
   * field of the spec changes.
   */
  lemma IntendedDefaultTagsLiveImages(app: AppService)
    ensures IsZeroTime(app.meta.deletionTimestamp) ==>
              (IntendedDefaultedSpec(app).image == app.spec.image <==> HasVersionTag(app.spec.image))
    ensures !IsZeroTime(app.meta.deletionTimestamp) ==> IntendedDefaultedSpec(app) == app.spec
    ensures IntendedDefaultedSpec(app).(image := app.spec.image) == app.spec
  {
    DefaultImageKeepsOnlyVersionTags(app.spec.image);
  }

  /** The receiver `r *AppService` of the admission methods, mutated in place. */
  class AppServiceObject {
    var kind: string
    var meta: ObjectMeta
    var spec: AppServiceSpec

    function Value(): AppService
      reads this
    {
      AppService(kind, meta, spec)
    }

    constructor (app: AppService)
      ensures Value() == app
    {
      kind, meta, spec := app.kind, app.meta, app.spec;
    }

    /**
     * Edits the image only when the deletion timestamp is set: no colon or a
     * non-version tag gets ":least" appended.
     */
    method Default()
      modifies this
      ensures kind == old(kind) && meta == old(meta)
      ensures spec == DefaultedSpec(old(Value()))
    {
      if IsZeroTime(meta.deletionTimestamp) {
        return;
      }
      spec := spec.(image := DefaultImage(spec.image));
    }

    /** `Default` with the early return for objects marked for deletion, as its comment describes. */
    method DefaultAsIntended()
      modifies this
      ensures kind == old(kind) && meta == old(meta)
      ensures spec == IntendedDefaultedSpec(old(Value()))
    {
      if !IsZeroTime(meta.deletionTimestamp) {
        return;
      }
      spec := spec.(image := DefaultImage(spec.image));
    }

    /** Replaces a nil or negative replica count with 1; never rejects, never warns. */
    method ValidateCreate() returns (warnings: seq<string>, err: Option<string>)
      modifies this
      ensures warnings == [] && err == None
      ensures kind == old(kind) && meta == old(meta)
      ensures spec == old(spec).(replicas := ValidatedReplicas(old(spec.replicas)))
    {
      if !CheckSpecReplicas(spec.replicas) {
        spec := spec.(replicas := Some(DefaultReplicas));
      }
      return [], None;
    }

    /** The same correction as `ValidateCreate`; the old object is ignored. */
    method ValidateUpdate(previous: AppService) returns (warnings: seq<string>, err: Option<string>)
      modifies this
      ensures warnings == [] && err == None
      ensures kind == old(kind) && meta == old(meta)
      ensures spec == old(spec).(replicas := ValidatedReplicas(old(spec.replicas)))
    {
      if !CheckSpecReplicas(spec.replicas) {
        spec := spec.(replicas := Some(DefaultReplicas));
      }
      return [], None;
    }

    /** Deletion is always admitted. */
    method ValidateDelete() returns (warnings: seq<string>, err: Option<string>)
      ensures warnings == [] && err == None
    {
      return [], None;
    }
  }
}
