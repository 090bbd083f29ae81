/**
 * The Android signing patcher (scripts/configure-android-signing.py): given the lines of
 * android/app/build.gradle, it either reports that signing is already configured, fails
 * because an anchor line is missing, or inserts three blocks of Gradle text — the keystore
 * loader after the plugin line, the signingConfigs block before `buildTypes {`, and the
 * signingConfig reference after the release build type's opening line.
 */
module AndroidSigning {

  /** `pat` occurs in `s` as a contiguous substring (Python's `pat in s`). */
  predicate Contains(s: string, pat: string)
    decreases |s|
    ensures |pat| == 0 ==> Contains(s, pat)
    ensures Contains(s, pat) ==> |pat| <= |s|
  {
    pat <= s || (|s| > 0 && Contains(s[1..], pat))
  }

  /** The file text the lines were split from: `splitlines(keepends=True)` keeps every line ending. */
  function Concat(lines: seq<string>): string {
    if |lines| == 0 then "" else lines[0] + Concat(lines[1..])
  }

  /** The marker whose presence means the file was already patched. */
  const Marker := "keystorePropertiesFile"
  const Plugin := "apply plugin: 'com.android.application'"
  const BuildTypes := "buildTypes {"
  const Release := "release {"

  /**
   * Loads key.properties; inserted after the plugin line. Its first definition names the
   * marker, written here as the constant.
   */
  const KeystoreBlock := "\ndef " + Marker + KeystoreBlockRest
  const KeystoreBlockRest :=
    " = rootProject.file(\"key.properties\")\n"
    + "def keystoreProperties = new Properties()\n"
    + "if (keystorePropertiesFile.exists()) {\n"
    + "    keystoreProperties.load(new FileInputStream(keystorePropertiesFile))\n"
    + "}\n"

  /** The release signing configuration; inserted before the `buildTypes {` line. */
  const SigningConfigsBlock :=
    "    \n"
    + "    signingConfigs {\n"
    + "        release {\n"
    + "            if (keystorePropertiesFile.exists()) {\n"
    + "                keyAlias keystoreProperties['keyAlias']\n"
    + "                keyPassword keystoreProperties['keyPassword']\n"
    + "                storeFile file(keystoreProperties['storeFile'])\n"
    + "                storePassword keystoreProperties['storePassword']\n"
    + "            }\n"
    + "        }\n"
    + "    }\n"

  /** The reference to it; inserted after the release build type's opening line. */
  const SigningRefBlock :=
    "            if (keystorePropertiesFile.exists()) {\n"
    + "                signingConfig signingConfigs.release\n"
    + "            }\n"

  /** What the script ends with, the file write and the process exit aside. */
  datatype Outcome =
    | AlreadyConfigured              // the marker is present: nothing is written
    | MissingSections                // an anchor was not found: exit status 1, nothing is written
    | Patched(lines: seq<string>)    // the lines written back

  /** Python's `list.insert(i, x)` for an index within the list: `x` lands at position `i`. */
  function Insert<T>(s: seq<T>, i: nat, x: T): (r: seq<T>)
    requires i <= |s|
    ensures |r| == |s| + 1
  {
    if i == 0 then [x] + s else [s[0]] + Insert(s[1..], i - 1, x)
  }

  /** Deleting the element at position `i`. */
  function RemoveAt<T>(s: seq<T>, i: nat): (r: seq<T>)
    requires i < |s|
    ensures |r| == |s| - 1
  {
    if i == 0 then s[1..] else [s[0]] + RemoveAt(s[1..], i - 1)
  }

  /** The three anchor indices of the scan, -1 while not found. */
  datatype Anchors = Anchors(plugin: int, build: int, release: int)

  /**
   * One pass of the scan loop over line `i`: the plugin and buildTypes indices follow the
   * latest match; the release index is set once, at a `release {` line met while the
   * buildTypes index (already updated for this line) is positive.
   */
  function ScanStep(a: Anchors, i: int, line: string): (r: Anchors)
    ensures (r.plugin == i <== Contains(line, Plugin)) && (r.plugin == i || r.plugin == a.plugin)
    ensures (r.build == i <== Contains(line, BuildTypes)) && (r.build == i || r.build == a.build)
    ensures a.release != -1 ==> r.release == a.release
    ensures r.release != a.release ==> r.release == i && 0 < r.build && Contains(line, Release)
  {
    var p := if Contains(line, Plugin) then i else a.plugin;
    var b := if Contains(line, BuildTypes) then i else a.build;
    var r := if b > 0 && Contains(line, Release) && a.release == -1 then i else a.release;
    Anchors(p, b, r)
  }

  /** The anchors after the scan has looked at the first `n` lines. */
  function ScanUpTo(lines: seq<string>, n: nat): (a: Anchors)
    requires n <= |lines|
    ensures -1 <= a.plugin < n && -1 <= a.build < n && -1 <= a.release < n
  {
    if n == 0 then Anchors(-1, -1, -1) else ScanStep(ScanUpTo(lines, n - 1), n - 1, lines[n - 1])
  }

  /** `k` is the last of the first `n` lines containing `pat`, or -1 when none does. */
  ghost predicate IsLast(lines: seq<string>, n: nat, pat: string, k: int)
    requires n <= |lines|
  {
    if k == -1 then forall j :: 0 <= j < n ==> !Contains(lines[j], pat)
    else 0 <= k < n && Contains(lines[k], pat) && forall j :: k < j < n ==> !Contains(lines[j], pat)
  }

  /** Release detection is armed at line `j` once a line after the first, up to `j`, holds `buildTypes {`. */
  ghost predicate Armed(lines: seq<string>, j: int)
    requires j < |lines|
  {
    exists k :: 0 < k <= j && Contains(lines[k], BuildTypes)
  }

  /** Line `j` is a `release {` line the scan accepts. */
  ghost predicate ReleaseAt(lines: seq<string>, j: int)
    requires 0 <= j < |lines|
  {
    Contains(lines[j], Release) && Armed(lines, j)
  }

  /** `k` is the first of the first `n` lines the scan accepts as the release line, or -1. */
  ghost predicate IsFirstRelease(lines: seq<string>, n: nat, k: int)
    requires n <= |lines|
  {
    if k == -1 then forall j :: 0 <= j < n ==> !ReleaseAt(lines, j)
    else 0 <= k < n && ReleaseAt(lines, k) && forall j :: 0 <= j < k ==> !ReleaseAt(lines, j)
  }

  /** The plugin and buildTypes indices are the last matching lines scanned. */
  lemma {:induction false} ScanLast(lines: seq<string>, n: nat)
    requires n <= |lines|
    ensures IsLast(lines, n, Plugin, ScanUpTo(lines, n).plugin)
    ensures IsLast(lines, n, BuildTypes, ScanUpTo(lines, n).build)
  {
    if n > 0 {
      ScanLast(lines, n - 1);
    }
  }

  /** A positive buildTypes index after line `j` is exactly the armed condition. */
  lemma ArmedIff(lines: seq<string>, j: nat)
    requires j < |lines|
    ensures ScanUpTo(lines, j + 1).build > 0 <==> Armed(lines, j)
  {
    ScanLast(lines, j + 1);
  }

  /** The release index is the first accepted `release {` line scanned. */
  lemma {:induction false} ScanRelease(lines: seq<string>, n: nat)
    requires n <= |lines|
    ensures IsFirstRelease(lines, n, ScanUpTo(lines, n).release)
  {
    if n > 0 {
      ScanRelease(lines, n - 1);
      ArmedIff(lines, n - 1);
    }
  }

  /** The scan's anchors for the whole file. */
  function Scan(lines: seq<string>): (a: Anchors)
    ensures -1 <= a.plugin < |lines| && -1 <= a.build < |lines| && -1 <= a.release < |lines|
  {
    ScanUpTo(lines, |lines|)
  }

  /**
   * The three insertions with the script's index adjustments: the keystore block after
   * the plugin line; the buildTypes and release indices each moved down one, the
   * signingConfigs block at the buildTypes index; the release index moved down once more,
   * the reference block after it.
   */
  function Patch(lines: seq<string>, a: Anchors): (out: seq<string>)
    requires 0 <= a.plugin < |lines| && 0 <= a.build < |lines| && 0 <= a.release < |lines|
    ensures |out| == |lines| + 3
  {
    var l1 := Insert(lines, a.plugin + 1, KeystoreBlock);
    var l2 := Insert(l1, a.build + 1, SigningConfigsBlock);
    Insert(l2, a.release + 3, SigningRefBlock)
  }

  /** configure_signing on the file's lines. */
  function Configure(lines: seq<string>): (r: Outcome)
    ensures r.Patched? ==> |r.lines| == |lines| + 3 && !Contains(Concat(lines), Marker)
    ensures r.MissingSections? ==> Scan(lines).plugin == -1 || Scan(lines).build == -1 || Scan(lines).release == -1
  {
    if Contains(Concat(lines), Marker) then AlreadyConfigured
    else
      var a := Scan(lines);
      if a.plugin == -1 || a.build == -1 || a.release == -1 then MissingSections
      else Patched(Patch(lines, a))
  }

  /** The script itself: the marker check, the scan, the exit on a missing anchor and the three in-place inserts. */
  method ConfigureSigning(lines: seq<string>) returns (r: Outcome)
    ensures r == Configure(lines)
  {
    if Contains(Concat(lines), Marker) {
      return AlreadyConfigured;
    }
    var pluginLine, buildLine, releaseLine := FindAnchors(lines);
    if pluginLine == -1 || buildLine == -1 || releaseLine == -1 {
      return MissingSections;
    }
    ghost var a := Anchors(pluginLine, buildLine, releaseLine);
    // the list is changed in place by three inserts; each index shift follows the script
    var out := Insert(lines, pluginLine + 1, KeystoreBlock);
    buildLine := buildLine + 1;
    releaseLine := releaseLine + 1;
    out := Insert(out, buildLine, SigningConfigsBlock);
    releaseLine := releaseLine + 1;
    out := Insert(out, releaseLine + 1, SigningRefBlock);
    assert out == Patch(lines, a);
    return Patched(out);
  }

  /** The scan loop over the lines, keeping the three anchor indices. */
  method FindAnchors(lines: seq<string>) returns (pluginLine: int, buildLine: int, releaseLine: int)
    ensures Anchors(pluginLine, buildLine, releaseLine) == Scan(lines)
  {
    pluginLine, buildLine, releaseLine := -1, -1, -1;
    var i := 0;
    while i < |lines|
      invariant 0 <= i <= |lines|
      invariant Anchors(pluginLine, buildLine, releaseLine) == ScanUpTo(lines, i)
    {
      var line := lines[i];
      if Contains(line, Plugin) {
        pluginLine := i;
      }
      if Contains(line, BuildTypes) {
        buildLine := i;
      }
      if buildLine > 0 && Contains(line, Release) && releaseLine == -1 {
        releaseLine := i;
      }
      i := i + 1;
    }
  }

  /** Inserting and then deleting at the same position gives the list back. */
  lemma {:induction false} RemoveInsert<T>(s: seq<T>, i: nat, x: T)
    requires i <= |s|
    ensures RemoveAt(Insert(s, i, x), i) == s
  {
    if i > 0 {
      RemoveInsert(s[1..], i - 1, x);
      assert ([s[0]] + Insert(s[1..], i - 1, x))[1..] == Insert(s[1..], i - 1, x);
      assert s == [s[0]] + s[1..];
    } else {
      assert ([x] + s)[1..] == s;
    }
  }

  /** The inserted element sits between the first `i` elements and the rest. */
  lemma {:induction false} InsertSplit<T>(s: seq<T>, i: nat, x: T)
    requires i <= |s|
    ensures Insert(s, i, x) == s[..i] + [x] + s[i..]
  {
    if i > 0 {
      InsertSplit(s[1..], i - 1, x);
      assert s[..i] == [s[0]] + s[1..][..i - 1];
      assert s[i..] == s[1..][i - 1..];
    } else {
      assert s[..0] == [] && s[0..] == s;
    }
  }

  /**
   * The three outcomes: already configured exactly when the file holds the marker; failure
   * exactly when, without it, no line holds the plugin, no line holds `buildTypes {`, or no
   * `release {` line is met once detection is armed; otherwise three lines more.
   */
  lemma Outcomes(lines: seq<string>)
    ensures Configure(lines) == AlreadyConfigured <==> Contains(Concat(lines), Marker)
    ensures Configure(lines) == MissingSections <==>
              !Contains(Concat(lines), Marker)
              && ((forall j :: 0 <= j < |lines| ==> !Contains(lines[j], Plugin))
                  || (forall j :: 0 <= j < |lines| ==> !Contains(lines[j], BuildTypes))
                  || (forall j :: 0 <= j < |lines| ==> !ReleaseAt(lines, j)))
    ensures Configure(lines).Patched? ==> |Configure(lines).lines| == |lines| + 3
  {
    var a := Scan(lines);
    ScanLast(lines, |lines|);
    ScanRelease(lines, |lines|);
    if a.plugin != -1 && a.build != -1 && a.release != -1 {
      assert Contains(lines[a.plugin], Plugin) && Contains(lines[a.build], BuildTypes);
      assert ReleaseAt(lines, a.release);
    }
  }

  /** Deleting the three inserted blocks gives back the original lines in their order. */
  lemma PatchedRestores(lines: seq<string>)
    requires Configure(lines).Patched?
    ensures var a := Scan(lines);
      RemoveAt(RemoveAt(RemoveAt(Configure(lines).lines, a.release + 3), a.build + 1), a.plugin + 1)
        == lines
  {
    PatchRestores(lines, Scan(lines));
  }

  /** Each of the three inserts is undone by a deletion at the same index, last one first. */
  lemma PatchRestores(lines: seq<string>, a: Anchors)
    requires 0 <= a.plugin < |lines| && 0 <= a.build < |lines| && 0 <= a.release < |lines|
    ensures RemoveAt(RemoveAt(RemoveAt(Patch(lines, a), a.release + 3), a.build + 1), a.plugin + 1)
              == lines
  {
    UndoThree(lines, a.plugin + 1, a.build + 1, a.release + 3,
              KeystoreBlock, SigningConfigsBlock, SigningRefBlock);
  }

  /** Deleting at the three insert positions, last insert first, undoes the inserts. */
  lemma UndoThree<T>(s: seq<T>, i: nat, j: nat, k: nat, x: T, y: T, z: T)
    requires i <= |s| && j <= |s| + 1 && k <= |s| + 2
    ensures RemoveAt(RemoveAt(RemoveAt(Insert(Insert(Insert(s, i, x), j, y), k, z), k), j), i) == s
  {
    var l1 := Insert(s, i, x);
    var l2 := Insert(l1, j, y);
    RemoveInsert(l2, k, z);
    RemoveInsert(l1, j, y);
    RemoveInsert(s, i, x);
  }

  /**
   * When the plugin line precedes the buildTypes line and that precedes (or is) the release
   * line, the keystore block follows the plugin line, the signingConfigs block precedes the
   * buildTypes line and the reference block follows the release line, the original lines
   * in between untouched.
   */
  lemma PatchedLayout(lines: seq<string>)
    requires Configure(lines).Patched?
    requires Scan(lines).plugin < Scan(lines).build <= Scan(lines).release
    ensures var a := Scan(lines);
      var p, b, r := a.plugin, a.build, a.release;
      Configure(lines).lines
        == lines[..p + 1] + [KeystoreBlock] + lines[p + 1..b] + [SigningConfigsBlock]
           + lines[b..r + 1] + [SigningRefBlock] + lines[r + 1..]
  {
    PatchLayout(lines, Scan(lines));
  }

  lemma PatchLayout(lines: seq<string>, a: Anchors)
    requires 0 <= a.plugin < a.build <= a.release < |lines|
    ensures var p, b, r := a.plugin, a.build, a.release;
      Patch(lines, a)
        == lines[..p + 1] + [KeystoreBlock] + lines[p + 1..b] + [SigningConfigsBlock]
           + lines[b..r + 1] + [SigningRefBlock] + lines[r + 1..]
  {
    var p, b, r := a.plugin, a.build, a.release;
    var P, M, Q, T := lines[..p + 1], lines[p + 1..b], lines[b..r + 1], lines[r + 1..];
    assert lines == P + M + Q + T;
    InsertThree(P, M, Q, T, KeystoreBlock, SigningConfigsBlock, SigningRefBlock);
  }

  /** Three inserts, each placed by the index shifts the earlier ones caused. */
  lemma InsertThree<T>(P: seq<T>, M: seq<T>, Q: seq<T>, R: seq<T>, x: T, y: T, z: T)
    ensures Insert(Insert(Insert(P + M + Q + R, |P|, x), |P| + |M| + 1, y), |P| + |M| + |Q| + 2, z)
              == P + [x] + M + [y] + Q + [z] + R
  {
    assert P + M + Q + R == P + (M + Q + R);
    InsertAppend(P, M + Q + R, x);
    assert P + [x] + (M + Q + R) == (P + [x] + M) + (Q + R);
    InsertAppend(P + [x] + M, Q + R, y);
    assert (P + [x] + M) + [y] + (Q + R) == (P + [x] + M + [y] + Q) + R;
    InsertAppend(P + [x] + M + [y] + Q, R, z);
  }

  /** Inserting at the seam of a concatenation. */
  lemma InsertAppend<T>(u: seq<T>, v: seq<T>, x: T)
    ensures Insert(u + v, |u|, x) == u + [x] + v
  {
    InsertSplit(u + v, |u|, x);
    assert (u + v)[..|u|] == u && (u + v)[|u|..] == v;
  }

  /** An occurrence in a part is an occurrence in the whole. */
  lemma {:induction false} ContainsLeft(s: string, t: string, pat: string)
    requires Contains(s, pat)
    ensures Contains(s + t, pat)
    decreases |s|
  {
    if !(pat <= s) {
      ContainsLeft(s[1..], t, pat);
      assert (s + t)[1..] == s[1..] + t;
    }
  }

  lemma {:induction false} ContainsRight(s: string, t: string, pat: string)
    requires Contains(t, pat)
    ensures Contains(s + t, pat)
    decreases |s|
  {
    if |s| == 0 {
      assert s + t == t;
    } else {
      ContainsRight(s[1..], t, pat);
      assert (s + t)[1..] == s[1..] + t;
    }
  }

  /** A line holding `pat` makes the file text hold it. */
  lemma {:induction false} ContainsLine(lines: seq<string>, line: string, pat: string)
    requires line in lines && Contains(line, pat)
    ensures Contains(Concat(lines), pat)
  {
    if lines[0] == line {
      ContainsLeft(line, Concat(lines[1..]), pat);
    } else {
      ContainsLine(lines[1..], line, pat);
      ContainsRight(lines[0], Concat(lines[1..]), pat);
    }
  }

  /** A string holds itself. */
  lemma ContainsSelf(s: string)
    ensures Contains(s, s)
  {
  }

  /** The keystore block holds the marker. */
  lemma MarkerInKeystoreBlock()
    ensures Contains(KeystoreBlock, Marker)
  {
    ContainsSelf(Marker);
    ContainsRight("\ndef ", Marker, Marker);
    ContainsLeft("\ndef " + Marker, KeystoreBlockRest, Marker);
  }

  /** An insert keeps every element already present. */
  lemma {:induction false} InsertKeeps<T>(s: seq<T>, i: nat, x: T, y: T)
    requires i <= |s| && y in s
    ensures y in Insert(s, i, x)
  {
    if i > 0 && s[0] != y {
      assert y in s[1..] by {
        assert s == [s[0]] + s[1..];
      }
      InsertKeeps(s[1..], i - 1, x, y);
    }
  }

  /** The inserted element is in the result. */
  lemma {:induction false} InsertHolds<T>(s: seq<T>, i: nat, x: T)
    requires i <= |s|
    ensures x in Insert(s, i, x)
  {
    if i > 0 {
      InsertHolds(s[1..], i - 1, x);
    }
  }

  /**
   * Running the script again on the file it wrote (however that text is split into lines)
   * finds the marker and changes nothing.
   */
  lemma SecondRunUnchanged(lines: seq<string>, again: seq<string>)
    requires Configure(lines).Patched? && Concat(again) == Concat(Configure(lines).lines)
    ensures Configure(again) == AlreadyConfigured
  {
    var a := Scan(lines);
    var l1 := Insert(lines, a.plugin + 1, KeystoreBlock);
    var l2 := Insert(l1, a.build + 1, SigningConfigsBlock);
    InsertHolds(lines, a.plugin + 1, KeystoreBlock);
    InsertKeeps(l1, a.build + 1, SigningConfigsBlock, KeystoreBlock);
    InsertKeeps(l2, a.release + 3, SigningRefBlock, KeystoreBlock);
    MarkerInKeystoreBlock();
    ContainsLine(Configure(lines).lines, KeystoreBlock, Marker);
  }
}
