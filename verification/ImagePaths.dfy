/**
 Where an image is written, how its URL is printed, and how the image server finds it again:
 controllers/imageclusterinstall_controller.go and internal/imageserver/imageserver.go.
 */
module ImagePaths {
  import opened Base

  // ---------------------------------------------------------------- paths

  /** The segments of a text between its slashes. */
  function Split(s: string): (r: seq<string>)
    ensures |r| > 0
  {
    if s == "" then [""]
    else
      var rest := Split(s[1..]);
      if s[0] == '/' then [""] + rest else [[s[0]] + rest[0]] + rest[1..]
  }

  /** The text of an absolute path. */
  function Render(segments: seq<string>): string {
    if segments == [] then "" else "/" + segments[0] + Render(segments[1..])
  }

  /** Lexical cleaning of an absolute path: empty and "." segments vanish, ".." takes its predecessor along. */
  function Clean(done: seq<string>, segments: seq<string>): seq<string>
    decreases |segments|
  {
    if segments == [] then done
    else
      var s := segments[0];
      Clean(if s == "" || s == "." then done
            else if s == ".." then (if done == [] then [] else done[..|done| - 1])
            else done + [s], segments[1..])
  }

  /** `filepath.Join` of a cleaned path with one more element, which may itself contain slashes. */
  function JoinOne(path: seq<string>, element: string): seq<string> {
    Clean(path, Split(element))
  }

  /** `filepath.Join` of a cleaned path with several elements. */
  function JoinAll(path: seq<string>, elements: seq<string>): seq<string>
    decreases |elements|
  {
    if elements == [] then path else JoinAll(JoinOne(path, elements[0]), elements[1..])
  }

  /** A segment that cleaning leaves alone. */
  predicate Plain(s: string) {
    s != "" && s != "." && s != ".." && '/' !in s
  }

  lemma {:induction false} SplitPlain(s: string)
    requires '/' !in s
    ensures Split(s) == [s]
  {
    if s != "" {
      assert s == [s[0]] + s[1..];
      SplitPlain(s[1..]);
    }
  }

  lemma JoinPlain(path: seq<string>, s: string)
    requires Plain(s)
    ensures JoinOne(path, s) == path + [s]
  {
    SplitPlain(s);
    assert Clean(path, [s]) == Clean(path + [s], []);
  }

  lemma {:induction false} SplitAtSlash(a: string, b: string)
    ensures Split(a + "/" + b) == Split(a) + Split(b)
  {
    var text := a + "/" + b;
    if a == "" {
      assert text[1..] == b;
    } else {
      assert text[0] == a[0] && text[1..] == a[1..] + "/" + b;
      SplitAtSlash(a[1..], b);
    }
  }

  lemma {:induction false} CleanInSteps(done: seq<string>, a: seq<string>, b: seq<string>)
    ensures Clean(done, a + b) == Clean(Clean(done, a), b)
    decreases |a|
  {
    if a == [] {
      assert a + b == b;
    } else {
      assert (a + b)[0] == a[0] && (a + b)[1..] == a[1..] + b;
      var s := a[0];
      var next := if s == "" || s == "." then done
                  else if s == ".." then (if done == [] then [] else done[..|done| - 1])
                  else done + [s];
      CleanInSteps(next, a[1..], b);
    }
  }

  lemma CleanOne(done: seq<string>, s: string)
    ensures Clean(done, [s]) ==
              if s == "" || s == "." then done
              else if s == ".." then (if done == [] then [] else done[..|done| - 1])
              else done + [s]
  {
    assert [s][1..] == [];
  }

  /**
   What joining means: a slash joins its two sides one after the other, the empty element and "." stay where they are,
   ".." leads back to where the last plain element came from, and above the root there is nothing.
   */
  lemma JoinLaws(path: seq<string>, a: string, b: string)
    ensures JoinOne(path, a + "/" + b) == JoinOne(JoinOne(path, a), b)
    ensures JoinOne(path, "") == path && JoinOne(path, ".") == path
    ensures Plain(a) ==> JoinOne(path, a) == path + [a] && JoinOne(path, a + "/..") == path
    ensures JoinOne([], "..") == []
  {
    SplitAtSlash(a, b);
    CleanInSteps(path, Split(a), Split(b));
    SplitPlain("");
    SplitPlain(".");
    SplitPlain("..");
    CleanOne(path, "");
    CleanOne(path, ".");
    CleanOne([], "..");
    if Plain(a) {
      JoinPlain(path, a);
      assert a + "/.." == a + "/" + "..";
      SplitAtSlash(a, "..");
      CleanInSteps(path, Split(a), Split(".."));
      CleanOne(path + [a], "..");
      assert (path + [a])[..|path|] == path;
    }
  }

  lemma {:induction false} JoinAllPlain(path: seq<string>, elements: seq<string>)
    requires forall e :: e in elements ==> Plain(e)
    ensures JoinAll(path, elements) == path + elements
    decreases |elements|
  {
    if elements != [] {
      JoinPlain(path, elements[0]);
      JoinAllPlain(path + [elements[0]], elements[1..]);
      assert path + elements == path + [elements[0]] + elements[1..];
    }
  }

  /** Joining in several steps is joining at once, also for elements with slashes and dots. */
  lemma {:induction false} JoinInSteps(path: seq<string>, first: seq<string>, second: seq<string>)
    ensures JoinAll(JoinAll(path, first), second) == JoinAll(path, first + second)
    decreases |first|
  {
    if first == [] {
      assert first + second == second;
    } else {
      assert (first + second)[0] == first[0] && (first + second)[1..] == first[1..] + second;
      JoinInSteps(JoinOne(path, first[0]), first[1..], second);
    }
  }

  // ---------------------------------------------------- writing and serving

  const NAMESPACES := "namespaces"
  const FILES := "files"
  const CLUSTER_CONFIG := "cluster-configuration"
  const ISO_NAME := "imagebasedconfig.iso"

  /** The controller goes down to the image in several steps. */
  function WrittenPath(dataDir: seq<string>, namespace: string, uid: string): seq<string> {
    var lockDir := JoinAll(dataDir, [NAMESPACES, namespace, uid]);
    var filesDir := JoinAll(lockDir, [FILES]);
    var isoWorkDir := JoinAll(filesDir, [CLUSTER_CONFIG]);
    JoinAll(isoWorkDir, [ISO_NAME])
  }

  function ClusterConfigDir(namespacesDir: seq<string>, namespace: string, uid: string): seq<string> {
    JoinAll(namespacesDir, [namespace, uid, FILES, CLUSTER_CONFIG])
  }

  function ServedPath(dataDir: seq<string>, namespace: string, uid: string): seq<string> {
    JoinAll(ClusterConfigDir(JoinAll(dataDir, [NAMESPACES]), namespace, uid), [ISO_NAME])
  }

  /** For one and the same pair, whatever it contains, both sides mean the same file. */
  lemma SamePlace(dataDir: seq<string>, namespace: string, uid: string)
    ensures ServedPath(dataDir, namespace, uid) == WrittenPath(dataDir, namespace, uid)
    ensures ServedPath(dataDir, namespace, uid) ==
              JoinAll(dataDir, [NAMESPACES, namespace, uid, FILES, CLUSTER_CONFIG, ISO_NAME])
  {
    hide JoinAll;
    JoinInSteps(dataDir, [NAMESPACES, namespace, uid], [FILES]);
    JoinInSteps(dataDir, [NAMESPACES, namespace, uid, FILES], [CLUSTER_CONFIG]);
    JoinInSteps(dataDir, [NAMESPACES, namespace, uid, FILES, CLUSTER_CONFIG], [ISO_NAME]);
    JoinInSteps(dataDir, [NAMESPACES], [namespace, uid, FILES, CLUSTER_CONFIG]);
    assert [NAMESPACES, namespace, uid] + [FILES] == [NAMESPACES, namespace, uid, FILES];
    var config := [NAMESPACES, namespace, uid, FILES, CLUSTER_CONFIG];
    assert [NAMESPACES, namespace, uid, FILES] + [CLUSTER_CONFIG] == config;
    assert [NAMESPACES] + [namespace, uid, FILES, CLUSTER_CONFIG] == config;
    assert [NAMESPACES, namespace, uid, FILES, CLUSTER_CONFIG] + [ISO_NAME] ==
           [NAMESPACES, namespace, uid, FILES, CLUSTER_CONFIG, ISO_NAME];
  }

  // -------------------------------------------------------- the path pattern

  const PREFIX := "/images/"
  const SUFFIX := ".iso"

  datatype Target = Target(namespace: string, uid: string)

  /** The wildcard matches at least one character, none of them a newline. */
  predicate Wild(s: string) {
    s != "" && '\n' !in s
  }

  function Print(t: Target): string {
    PREFIX + t.namespace + "/" + t.uid + SUFFIX
  }

  /** One way to read a request path. */
  predicate Reads(path: string, t: Target) {
    path == Print(t) && Wild(t.namespace) && Wild(t.uid)
  }

  /** Tries the slashes from `k` down to the first one that splits the middle into two wildcards. */
  function Backtrack(middle: string, k: nat): Option<Target>
    requires k <= |middle|
  {
    if k == 0 then None
    else if middle[k - 1] == '/' && Wild(middle[..k - 1]) && Wild(middle[k..]) then
      Some(Target(middle[..k - 1], middle[k..]))
    else Backtrack(middle, k - 1)
  }

  /** The greedy match of the pattern: a prefix, two wildcards around a slash, and a suffix. */
  function Parse(path: string): Option<Target> {
    if PREFIX <= path && |path| >= |PREFIX| + |SUFFIX| && path[|path| - |SUFFIX|..] == SUFFIX
    then var middle := path[|PREFIX|..|path| - |SUFFIX|]; Backtrack(middle, |middle|)
    else None
  }

  lemma {:induction false} BacktrackIsGreedy(middle: string, k: nat, t: Target)
    requires k <= |middle| && Wild(t.namespace) && Wild(t.uid) && middle == t.namespace + "/" + t.uid
    requires |t.namespace| < k
    ensures Backtrack(middle, k).Some? && |Backtrack(middle, k).value.namespace| >= |t.namespace|
  {
    if |t.namespace| == k - 1 {
      assert middle[..k - 1] == t.namespace && middle[k..] == t.uid && middle[k - 1] == '/';
    } else {
      BacktrackIsGreedy(middle, k - 1, t);
    }
  }

  lemma {:induction false} BacktrackReads(middle: string, k: nat)
    requires k <= |middle| && Backtrack(middle, k).Some?
    ensures var t := Backtrack(middle, k).value;
            middle == t.namespace + "/" + t.uid && Wild(t.namespace) && Wild(t.uid)
  {
    if middle[k - 1] == '/' && Wild(middle[..k - 1]) && Wild(middle[k..]) {
      assert middle == middle[..k - 1] + [middle[k - 1]] + middle[k..];
    } else {
      BacktrackReads(middle, k - 1);
    }
  }

  lemma MiddleOf(path: string, t: Target)
    requires path == Print(t)
    ensures PREFIX <= path && |path| >= |PREFIX| + |SUFFIX| && path[|path| - |SUFFIX|..] == SUFFIX
    ensures path[|PREFIX|..|path| - |SUFFIX|] == t.namespace + "/" + t.uid
  {
    var middle := t.namespace + "/" + t.uid;
    assert path == PREFIX + middle + SUFFIX;
  }

  /** The parser finds a reading whenever there is one, and then the one with the longest namespace. */
  lemma ParseIsGreedy(path: string)
    ensures Parse(path).Some? ==> Reads(path, Parse(path).value)
    ensures forall t :: Reads(path, t) ==> Parse(path).Some? && |t.namespace| <= |Parse(path).value.namespace|
  {
    if Parse(path).Some? {
      var middle := path[|PREFIX|..|path| - |SUFFIX|];
      assert path == PREFIX + middle + SUFFIX;
      BacktrackReads(middle, |middle|);
    }
    forall t | Reads(path, t) ensures Parse(path).Some? && |t.namespace| <= |Parse(path).value.namespace| {
      MiddleOf(path, t);
      BacktrackIsGreedy(t.namespace + "/" + t.uid, |t.namespace + "/" + t.uid|, t);
    }
  }

  /** A slash inside the UID offers a reading with a longer namespace. */
  lemma LongerReading(t: Target, k: nat)
    requires Wild(t.namespace) && Wild(t.uid) && k < |t.uid| - 1 && t.uid[k] == '/'
    ensures Reads(Print(t), Target(t.namespace + "/" + t.uid[..k], t.uid[k + 1..]))
  {
    assert t.uid == t.uid[..k] + "/" + t.uid[k + 1..];
    var longer := Target(t.namespace + "/" + t.uid[..k], t.uid[k + 1..]);
    assert longer.namespace + "/" + longer.uid == t.namespace + "/" + t.uid;
    PrintMiddle(longer);
    PrintMiddle(t);
  }

  lemma PrintMiddle(t: Target)
    ensures Print(t) == PREFIX + (t.namespace + "/" + t.uid) + SUFFIX
  {
  }

  /** A reading with a longer namespace shows a slash inside the UID. */
  lemma SlashInside(t: Target, r: Target)
    requires t.namespace + "/" + t.uid == r.namespace + "/" + r.uid && r.uid != "" && |t.namespace| < |r.namespace|
    ensures var k := |r.namespace| - |t.namespace| - 1; k < |t.uid| - 1 && t.uid[k] == '/'
  {
    var middle := t.namespace + "/" + t.uid;
    var k := |r.namespace| - |t.namespace| - 1;
    assert |middle| == |r.namespace| + 1 + |r.uid|;
    assert middle[|r.namespace|] == '/';
    assert middle[|t.namespace| + 1 + k] == t.uid[k];
  }

  lemma SameLengthSamePair(t: Target, r: Target)
    requires t.namespace + "/" + t.uid == r.namespace + "/" + r.uid && |t.namespace| == |r.namespace|
    ensures t == r
  {
    var middle := t.namespace + "/" + t.uid;
    assert t.namespace == middle[..|t.namespace|] && r.namespace == middle[..|t.namespace|];
    assert t.uid == middle[|t.namespace| + 1..] && r.uid == middle[|t.namespace| + 1..];
  }

  /**
   A printed pair is read back as the same pair if and only if its UID has no slash, except perhaps a last one.
   The namespace may even contain slashes.
   */
  lemma RoundTripIff(t: Target)
    requires Wild(t.namespace) && Wild(t.uid)
    ensures Parse(Print(t)) == Some(t) <==> forall k :: 0 <= k < |t.uid| - 1 ==> t.uid[k] != '/'
  {
    var path := Print(t);
    ParseIsGreedy(path);
    assert Reads(path, t);
    var r := Parse(path).value;
    MiddleOf(path, t);
    MiddleOf(path, r);
    hide Parse, Print;
    if |r.namespace| == |t.namespace| {
      SameLengthSamePair(t, r);
      forall k | 0 <= k < |t.uid| - 1 ensures t.uid[k] != '/' {
        if t.uid[k] == '/' {
          LongerReading(t, k);
        }
      }
    } else {
      SlashInside(t, r);
    }
  }

  /** A UID with a slash inside is misread. */
  lemma SlashIsMisread()
    ensures Parse(Print(Target("n", "a/b"))) != Some(Target("n", "a/b"))
  {
    assert "a/b"[1] == '/';
    RoundTripIff(Target("n", "a/b"));
  }

  // ----------------------------------------------------------- end to end

  /** A name in the form that Kubernetes gives to namespaces and UIDs. */
  predicate KubernetesName(s: string) {
    s != "" && forall c :: c in s ==> 'a' <= c <= 'z' || '0' <= c <= '9' || c == '-'
  }

  lemma KubernetesIsPlain(s: string)
    requires KubernetesName(s)
    ensures Plain(s) && Plain(s + SUFFIX) && Wild(s)
    ensures forall k :: 0 <= k < |s| - 1 ==> s[k] != '/'
  {
    assert s[0] in s;
    var file := s + SUFFIX;
    assert file[|file| - 1] == 'o';
  }

  /** The path of the URL that the controller puts into the data image. */
  function UrlPath(t: Target): string {
    Render(JoinAll([], ["images", t.namespace, t.uid + SUFFIX]))
  }

  lemma JoinThree(a: string, b: string, c: string)
    requires Plain(a) && Plain(b) && Plain(c)
    ensures Render(JoinAll([], [a, b, c])) == "/" + a + "/" + b + "/" + c
  {
    hide Plain, JoinAll;
    JoinAllPlain([], [a, b, c]);
    assert [] + [a, b, c] == [a, b, c];
    assert [a, b, c][1..] == [b, c] && [b, c][1..] == [c];
    assert Render([c]) == "/" + c;
  }

  lemma UrlPathPrints(t: Target)
    requires KubernetesName(t.namespace) && KubernetesName(t.uid)
    ensures UrlPath(t) == Print(t) == "/images/" + t.namespace + "/" + t.uid + ".iso"
  {
    assert Plain("images");
    hide Plain, KubernetesName, JoinAll, Render;
    KubernetesIsPlain(t.namespace);
    KubernetesIsPlain(t.uid);
    JoinThree("images", t.namespace, t.uid + SUFFIX);
    assert "/" + "images" + "/" == PREFIX;
  }

  /** The file the server looks for, given the path of a request. */
  function Lookup(dataDir: seq<string>, path: string): Option<seq<string>> {
    match Parse(path)
    case None => None
    case Some(t) => Some(ServedPath(dataDir, t.namespace, t.uid))
  }

  /** A request for the URL of an installation finds the file that was written for this installation. */
  lemma ServerFindsTheImage(dataDir: seq<string>, t: Target)
    requires KubernetesName(t.namespace) && KubernetesName(t.uid)
    ensures Parse(UrlPath(t)) == Some(t)
    ensures Lookup(dataDir, UrlPath(t)) == Some(WrittenPath(dataDir, t.namespace, t.uid))
  {
    UrlPathPrints(t);
    KubernetesIsPlain(t.namespace);
    KubernetesIsPlain(t.uid);
    hide Parse, Print, UrlPath, ServedPath, WrittenPath, KubernetesName, Plain, Wild;
    RoundTripIff(t);
    SamePlace(dataDir, t.namespace, t.uid);
  }

  /** Different installations never share a URL. */
  lemma UrlsAreSeparate(a: Target, b: Target)
    requires KubernetesName(a.namespace) && KubernetesName(a.uid)
    requires KubernetesName(b.namespace) && KubernetesName(b.uid)
    requires UrlPath(a) == UrlPath(b)
    ensures a == b
  {
    hide UrlPath, WrittenPath, Parse, KubernetesName;
    ServerFindsTheImage([], a);
    ServerFindsTheImage([], b);
  }

  /** Different installations never share a file. */
  lemma FilesAreSeparate(dataDir: seq<string>, a: Target, b: Target)
    requires KubernetesName(a.namespace) && KubernetesName(a.uid)
    requires KubernetesName(b.namespace) && KubernetesName(b.uid)
    requires WrittenPath(dataDir, a.namespace, a.uid) == WrittenPath(dataDir, b.namespace, b.uid)
    ensures a == b
  {
    hide WrittenPath, KubernetesName;
    WrittenPlain(dataDir, a);
    WrittenPlain(dataDir, b);
    SameSix(dataDir, [NAMESPACES, a.namespace, a.uid, FILES, CLUSTER_CONFIG, ISO_NAME],
                     [NAMESPACES, b.namespace, b.uid, FILES, CLUSTER_CONFIG, ISO_NAME]);
  }

  lemma SameSix(path: seq<string>, a: seq<string>, b: seq<string>)
    requires path + a == path + b && |a| == 6 && |b| == 6
    ensures a[1] == b[1] && a[2] == b[2]
  {
    assert (path + a)[|path| + 1] == a[1] && (path + b)[|path| + 1] == b[1];
    assert (path + a)[|path| + 2] == a[2] && (path + b)[|path| + 2] == b[2];
  }

  lemma JoinSix(path: seq<string>, a: string, b: string, c: string, d: string, e: string, f: string)
    requires Plain(a) && Plain(b) && Plain(c) && Plain(d) && Plain(e) && Plain(f)
    ensures JoinAll(path, [a, b, c, d, e, f]) == path + [a, b, c, d, e, f]
  {
    hide Plain, JoinAll;
    JoinAllPlain(path, [a, b, c, d, e, f]);
  }

  lemma WrittenPlain(dataDir: seq<string>, t: Target)
    requires KubernetesName(t.namespace) && KubernetesName(t.uid)
    ensures WrittenPath(dataDir, t.namespace, t.uid) ==
              dataDir + ["namespaces", t.namespace, t.uid, "files", "cluster-configuration", "imagebasedconfig.iso"]
  {
    hide Plain, KubernetesName, JoinAll, WrittenPath, ServedPath;
    KubernetesIsPlain(t.namespace);
    KubernetesIsPlain(t.uid);
    FixedNamesArePlain();
    SamePlace(dataDir, t.namespace, t.uid);
    JoinSix(dataDir, NAMESPACES, t.namespace, t.uid, FILES, CLUSTER_CONFIG, ISO_NAME);
  }

  lemma FixedNamesArePlain()
    ensures Plain(NAMESPACES) && Plain(FILES) && Plain(CLUSTER_CONFIG) && Plain(ISO_NAME)
  {
    assert NAMESPACES[0] == 'n' && FILES[0] == 'f' && CLUSTER_CONFIG[0] == 'c' && ISO_NAME[0] == 'i';
  }
}
