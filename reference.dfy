/** The reference rewriter: maps a resolved registry domain and an image
    name without its tag to a fully qualified `domain/namespace/repository`
    reference under that domain. */
module ImageReference {
  import opened GoStrings

  /** The namespace official images live in. */
  const DefaultUserName := "library"

  /** A first path segment that names a registry host rather than a user:
      it holds a `.` or a `:`, or it is `localhost`. */
  predicate LooksLikeDomain(segment: string): (b: bool)
    ensures b <==> '.' in segment || ':' in segment || segment == "localhost"
  {
    ContainsAny(segment, ".:") || segment == "localhost"
  }

  /** convertImageTag. Everything up to the first `/` of a two-slash name is
      an old registry domain and is replaced; a one-slash name keeps its
      first segment only when that segment is a user namespace; a bare name
      goes into the default namespace. Three or more slashes cannot reach
      this function and give the empty string. */
  function ConvertImageTag(domain: string, imageWithoutTag: string): (r: string)
    ensures r == "" <==> Count(imageWithoutTag, '/') > 2
    ensures r != "" ==> domain + "/" <= r
  {
    match Count(imageWithoutTag, '/')
    case 2 =>
      var i := IndexRune(imageWithoutTag, '/');
      domain + "/" + imageWithoutTag[i + 1..]
    case 1 =>
      var i := IndexRune(imageWithoutTag, '/');
      if !ContainsAny(imageWithoutTag[..i], ".:") && imageWithoutTag[..i] != "localhost" then
        domain + "/" + imageWithoutTag
      else
        domain + "/" + DefaultUserName + "/" + imageWithoutTag[i + 1..]
    case 0 =>
      domain + "/" + DefaultUserName + "/" + imageWithoutTag
    case _ =>
      ""
  }

  // ---------------------------------------------------------------------
  // An independent reading of the same rules, segment by segment.
  // ---------------------------------------------------------------------

  /** No segment contains a `/`. */
  predicate SlashFree(segments: seq<string>) {
    forall k :: 0 <= k < |segments| ==> '/' !in segments[k]
  }

  /** The segments joined with `/`. */
  function JoinPath(segments: seq<string>): string
    requires |segments| >= 1
  {
    if |segments| == 1 then segments[0] else segments[0] + "/" + JoinPath(segments[1..])
  }

  /** The `/`-separated segments of a name, as `strings.Split(s, "/")`. */
  function SplitPath(s: string): (segments: seq<string>)
    ensures |segments| >= 1 && SlashFree(segments)
    ensures JoinPath(segments) == s
    decreases |s|
  {
    var i := IndexRune(s, '/');
    if i == -1 then [s]
    else
      var rest := SplitPath(s[i + 1..]);
      assert ([s[..i]] + rest)[1..] == rest;
      assert s == s[..i] + "/" + s[i + 1..];
      [s[..i]] + rest
  }

  /** The namespace and repository a name of one to three segments is
      pulled as: a bare repository goes into the default namespace, a
      leading domain-like segment is dropped in favour of the default
      namespace, a leading user namespace is kept, and the first of three
      segments is always an old domain. */
  function RepositoryPath(segments: seq<string>): (path: seq<string>)
    requires 1 <= |segments| <= 3
    ensures |path| == 2
  {
    if |segments| == 1 then [DefaultUserName, segments[0]]
    else if |segments| == 2 then
      if LooksLikeDomain(segments[0]) then [DefaultUserName, segments[1]] else segments
    else segments[1..]
  }

  /** The rewritten reference, built from the segments of the name. */
  function RewriteSegments(domain: string, segments: seq<string>): string
    requires |segments| >= 1
  {
    if |segments| > 3 then "" else JoinPath([domain] + RepositoryPath(segments))
  }

  /** A path of slash-free segments has one `/` fewer than it has segments. */
  lemma {:induction false} CountJoin(segments: seq<string>)
    requires |segments| >= 1 && SlashFree(segments)
    ensures Count(JoinPath(segments), '/') == |segments| - 1
  {
    if |segments| > 1 {
      assert '/' !in segments[0];
      CountJoin(segments[1..]);
      CountAppend(segments[0], "/", '/');
      CountAppend(segments[0] + "/", JoinPath(segments[1..]), '/');
    }
  }

  /** A path of three segments, written out. */
  lemma JoinThree(x: string, y: string, z: string)
    ensures JoinPath([x, y, z]) == x + "/" + y + "/" + z
  {
    assert [x, y, z][1..] == [y, z];
    assert [y, z][1..] == [z];
    assert JoinPath([y, z]) == y + "/" + z;
    assert JoinPath([x, y, z]) == x + "/" + (y + "/" + z);
  }

  /** The first `/` of a path of two or more slash-free segments ends the
      first segment; what follows it is the path of the other segments. */
  lemma SplitAtFirst(segments: seq<string>)
    requires |segments| >= 2 && SlashFree(segments)
    ensures var s := JoinPath(segments);
      IndexRune(s, '/') == |segments[0]| &&
      s[..|segments[0]|] == segments[0] &&
      s[|segments[0]| + 1..] == JoinPath(segments[1..])
  {
    var s := JoinPath(segments);
    var n := |segments[0]|;
    assert s == segments[0] + "/" + JoinPath(segments[1..]);
    assert s[..n] == segments[0] && s[n] == '/';
    assert s[n + 1..] == JoinPath(segments[1..]);
    assert '/' !in segments[0];
  }

  /** The rewriter agrees with the segment-by-segment rules on every path
      of slash-free segments. */
  lemma ConvertBySegments(domain: string, segments: seq<string>)
    requires |segments| >= 1 && SlashFree(segments)
    ensures ConvertImageTag(domain, JoinPath(segments)) == RewriteSegments(domain, segments)
  {
    CountJoin(segments);
    if |segments| == 1 {
      JoinThree(domain, DefaultUserName, segments[0]);
    } else if |segments| == 2 {
      ConvertTwoSegments(domain, segments);
    } else if |segments| == 3 {
      ConvertThreeSegments(domain, segments);
    }
  }

  lemma ConvertTwoSegments(domain: string, segments: seq<string>)
    requires |segments| == 2 && SlashFree(segments)
    ensures ConvertImageTag(domain, JoinPath(segments)) == RewriteSegments(domain, segments)
  {
    CountJoin(segments);
    SplitAtFirst(segments);
    var s := JoinPath(segments);
    assert segments[1..] == [segments[1]];
    assert s[|segments[0]| + 1..] == segments[1];
    assert s == segments[0] + "/" + segments[1];
    if LooksLikeDomain(segments[0]) {
      JoinThree(domain, DefaultUserName, segments[1]);
    } else {
      JoinThree(domain, segments[0], segments[1]);
    }
  }

  lemma ConvertThreeSegments(domain: string, segments: seq<string>)
    requires |segments| == 3 && SlashFree(segments)
    ensures ConvertImageTag(domain, JoinPath(segments)) == RewriteSegments(domain, segments)
  {
    CountJoin(segments);
    SplitAtFirst(segments);
    assert segments[1..] == [segments[1], segments[2]];
    assert JoinPath(segments[1..]) == segments[1] + "/" + segments[2] by {
      assert segments[1..][1..] == [segments[2]];
    }
    JoinThree(domain, segments[1], segments[2]);
  }

  /** Every name is rewritten by the segment-by-segment rules. */
  lemma ConvertAgreesWithRules(domain: string, imageWithoutTag: string)
    ensures ConvertImageTag(domain, imageWithoutTag) == RewriteSegments(domain, SplitPath(imageWithoutTag))
  {
    ConvertBySegments(domain, SplitPath(imageWithoutTag));
  }

  /** A bare repository name goes into the default namespace. */
  lemma RewriteBareName(domain: string, image: string)
    requires '/' !in image
    ensures ConvertImageTag(domain, image) == domain + "/" + DefaultUserName + "/" + image
  {
    ConvertBySegments(domain, [image]);
  }

  /** `a/b`: a user namespace `a` is kept; a domain-like `a` is replaced by
      the default namespace. */
  lemma RewriteOneSlash(domain: string, a: string, b: string)
    requires '/' !in a && '/' !in b
    ensures !LooksLikeDomain(a) ==> ConvertImageTag(domain, a + "/" + b) == domain + "/" + a + "/" + b
    ensures LooksLikeDomain(a) ==> ConvertImageTag(domain, a + "/" + b) == domain + "/" + DefaultUserName + "/" + b
  {
    assert JoinPath([a, b]) == a + "/" + b;
    ConvertBySegments(domain, [a, b]);
    JoinThree(domain, a, b);
    JoinThree(domain, DefaultUserName, b);
  }

  /** `a/b/c`: the old domain `a` is replaced by `domain`. */
  lemma RewriteTwoSlashes(domain: string, a: string, b: string, c: string)
    requires '/' !in a && '/' !in b && '/' !in c
    ensures ConvertImageTag(domain, a + "/" + b + "/" + c) == domain + "/" + b + "/" + c
  {
    JoinThree(a, b, c);
    ConvertBySegments(domain, [a, b, c]);
  }

  /** `d/x/y` with slash-free `x` and `y` has two `/` more than `d`. */
  lemma CountQualified(domain: string, x: string, y: string)
    requires '/' !in x && '/' !in y
    ensures Count(domain + "/" + x + "/" + y, '/') == Count(domain, '/') + 2
  {
    CountAppend(domain, "/", '/');
    CountAppend(domain + "/", x, '/');
    CountAppend(domain + "/" + x, "/", '/');
    CountAppend(domain + "/" + x + "/", y, '/');
  }

  /** A rewritten reference is fully qualified: it has exactly two more `/`
      than the domain, so namespace and repository follow the domain. */
  lemma RewrittenIsQualified(domain: string, imageWithoutTag: string)
    requires ConvertImageTag(domain, imageWithoutTag) != ""
    ensures Count(ConvertImageTag(domain, imageWithoutTag), '/') == Count(domain, '/') + 2
  {
    var segments := SplitPath(imageWithoutTag);
    ConvertAgreesWithRules(domain, imageWithoutTag);
    CountJoin(segments);
    var path := RepositoryPath(segments);
    assert [domain] + path == [domain, path[0], path[1]];
    JoinThree(domain, path[0], path[1]);
    assert '/' !in path[0] && '/' !in path[1];
    CountQualified(domain, path[0], path[1]);
  }

  /** Rewriting an already rewritten reference under another domain only
      swaps the domain: the result is what rewriting the original name
      under that domain gives. */
  lemma Redomain(first: string, second: string, imageWithoutTag: string)
    requires '/' !in first
    requires ConvertImageTag(first, imageWithoutTag) != ""
    ensures ConvertImageTag(second, ConvertImageTag(first, imageWithoutTag)) == ConvertImageTag(second, imageWithoutTag)
  {
    var segments := SplitPath(imageWithoutTag);
    ConvertBySegments(first, segments);
    ConvertBySegments(second, segments);
    CountJoin(segments);
    var path := RepositoryPath(segments);
    var qualified := [first] + path;
    assert SlashFree(path);
    assert SlashFree(qualified);
    ConvertBySegments(second, qualified);
    assert qualified[1..] == path;
  }

  /** Rewriting is idempotent once the domain has no `/`. */
  lemma RewriteIdempotent(domain: string, imageWithoutTag: string)
    requires '/' !in domain
    requires ConvertImageTag(domain, imageWithoutTag) != ""
    ensures ConvertImageTag(domain, ConvertImageTag(domain, imageWithoutTag)) == ConvertImageTag(domain, imageWithoutTag)
  {
    Redomain(domain, domain, imageWithoutTag);
  }

  /** Facts about the literal names used in the worked examples. */
  lemma ExampleNames()
    ensures '/' !in "nginx" && '/' !in "myuser" && '/' !in "localhost"
    ensures '/' !in "registry.example.com" && '/' !in "oldreg.io"
    ensures "myuser" + "/" + "nginx" == "myuser/nginx"
    ensures "localhost" + "/" + "nginx" == "localhost/nginx"
    ensures "registry.example.com" + "/" + "nginx" == "registry.example.com/nginx"
    ensures "oldreg.io" + "/" + "myuser" + "/" + "nginx" == "oldreg.io/myuser/nginx"
    ensures !LooksLikeDomain("myuser") && LooksLikeDomain("localhost")
    ensures LooksLikeDomain("registry.example.com")
    ensures Count("a/b/c/d", '/') == 3
  {
    assert '.' !in "myuser" && ':' !in "myuser";
    assert "registry.example.com"[8] == '.';
    assert '.' in ".:" && '.' in "registry.example.com";
  }

  /** Worked examples of the rewriting rules, one per case. */
  lemma RewriteExamples(domain: string)
    ensures ConvertImageTag(domain, "nginx") == domain + "/" + "library" + "/" + "nginx"
    ensures ConvertImageTag(domain, "myuser/nginx") == domain + "/" + "myuser" + "/" + "nginx"
    ensures ConvertImageTag(domain, "localhost/nginx") == domain + "/" + "library" + "/" + "nginx"
    ensures ConvertImageTag(domain, "registry.example.com/nginx") == domain + "/" + "library" + "/" + "nginx"
    ensures ConvertImageTag(domain, "oldreg.io/myuser/nginx") == domain + "/" + "myuser" + "/" + "nginx"
    ensures ConvertImageTag(domain, "a/b/c/d") == ""
  {
    ExampleNames();
    RewriteBareName(domain, "nginx");
    RewriteOneSlash(domain, "myuser", "nginx");
    RewriteOneSlash(domain, "localhost", "nginx");
    RewriteOneSlash(domain, "registry.example.com", "nginx");
    RewriteTwoSlashes(domain, "oldreg.io", "myuser", "nginx");
  }
}
