/** Names in the nix backend's image directory: the key of an archive, and the way back from the image
    it is stored in. */
module ImageNames {
  import opened Options

  /** What stands before the first `c`, or all of it. */
  function Before(s: string, c: char): (r: string)
    ensures c !in r && r <= s
    ensures |r| < |s| ==> s[|r|] == c
  {
    if s == "" || s[0] == c then "" else [s[0]] + Before(s[1..], c)
  }

  function TrimSlashes(p: string): (r: string)
    ensures r <= p && (r != "" ==> r[|r| - 1] != '/')
  {
    if p != "" && p[|p| - 1] == '/' then TrimSlashes(p[..|p| - 1]) else p
  }

  function AfterLastSlash(p: string): (r: string)
    ensures '/' !in r
  {
    if p == "" || p[|p| - 1] == '/' then "" else AfterLastSlash(p[..|p| - 1]) + [p[|p| - 1]]
  }

  /** Go's filepath.Base. */
  function Base(p: string): string {
    if p == "" then "."
    else
      var trimmed := TrimSlashes(p);
      if trimmed == "" then "/" else AfterLastSlash(trimmed)
  }

  predicate IsKey(k: string) {
    20 <= |k| <= 60 && forall i :: 0 <= i < |k| ==> '0' <= k[i] <= '9' || 'a' <= k[i] <= 'z'
  }

  function ArchiveKey(archive: string): (r: Option<string>)
    ensures r.Some? ==> IsKey(r.value)
  {
    var key := Before(Base(archive), '.');
    if IsKey(key) then Some(key) else None
  }

  /** The key of an archive is what stands in its name before the first dot, whatever directory it is in, if that is
      20 to 60 digits and small letters; otherwise it has none. */
  lemma ArchiveKeyIs(dir: string, stem: string, rest: string)
    requires dir == "" || dir[|dir| - 1] == '/'
    requires '/' !in stem + rest && '.' !in stem && |stem| + |rest| > 0 && (rest != "" ==> rest[0] == '.')
    ensures var key := ArchiveKey(dir + (stem + rest));
      && (key.Some? <==>
          20 <= |stem| <= 60 && forall i :: 0 <= i < |stem| ==> '0' <= stem[i] <= '9' || 'a' <= stem[i] <= 'z')
      && (key.Some? ==> key.value == stem)
  {
    BaseIs(dir, stem + rest);
    BeforeIs(stem, rest);
  }

  lemma BaseIs(dir: string, name: string)
    requires (dir == "" || dir[|dir| - 1] == '/') && '/' !in name && name != ""
    ensures Base(dir + name) == name
  {
    var whole := dir + name;
    assert whole[|whole| - 1] == name[|name| - 1];
    if dir == "" {
      assert whole == name;
      NoSlash(name);
    } else {
      AfterSlashIs(dir, name);
    }
  }

  lemma {:induction false} NoSlash(name: string)
    requires '/' !in name
    ensures AfterLastSlash(name) == name
  {
    if name == "" {
    } else {
      NoSlash(name[..|name| - 1]);
      assert name[..|name| - 1] + [name[|name| - 1]] == name;
    }
  }

  lemma {:induction false} BeforeIs(stem: string, rest: string)
    requires '.' !in stem && (rest != "" ==> rest[0] == '.')
    ensures Before(stem + rest, '.') == stem
  {
    if stem == "" {
      assert stem + rest == rest;
    } else {
      assert (stem + rest)[1..] == stem[1..] + rest;
      BeforeIs(stem[1..], rest);
    }
  }

  function ImageName(key: string): string {
    "archive-" + key + ".erofs"
  }

  /** What the build ID's symlink says. */
  function LinkTarget(key: string): string {
    "../" + ImageName(key)
  }

  function CutPrefix(s: string, prefix: string): Option<string> {
    if prefix <= s then Some(s[|prefix|..]) else None
  }

  function CutSuffix(s: string, suffix: string): Option<string> {
    if |suffix| <= |s| && s[|s| - |suffix|..] == suffix then Some(s[..|s| - |suffix|]) else None
  }

  function KeyFromImageName(name: string): Option<string> {
    match CutPrefix(name, "archive-")
    case None => None
    case Some(rest) =>
      match CutSuffix(rest, ".erofs")
      case None => None
      case Some(key) => if IsKey(key) then Some(key) else None
  }

  lemma {:induction false} AfterSlashIs(dir: string, name: string)
    requires '/' !in name && dir != "" && dir[|dir| - 1] == '/'
    ensures AfterLastSlash(dir + name) == name
  {
    if name == "" {
      assert dir + name == dir;
    } else {
      var init := name[..|name| - 1];
      AfterSlashIs(dir, init);
      assert (dir + name)[..|dir + name| - 1] == dir + init;
      assert init + [name[|name| - 1]] == name;
    }
  }

  /** Of a name made like an image's the key is read back if and only if it could be one: 20 to 60 digits and small
      letters. */
  lemma ImageNameReadsBack(key: string)
    ensures var usable := 20 <= |key| <= 60
        && forall i :: 0 <= i < |key| ==> '0' <= key[i] <= '9' || 'a' <= key[i] <= 'z';
      KeyFromImageName("archive-" + key + ".erofs") == if usable then Some(key) else None
  {
    var prefix, suffix := "archive-", ".erofs";
    var name := prefix + key + suffix;
    assert name == prefix + (key + suffix);
    assert name[|prefix|..] == key + suffix;
    assert (key + suffix)[|key|..] == suffix && (key + suffix)[..|key|] == key;
  }

  lemma LinkLeadsToImage(key: string)
    requires IsKey(key)
    ensures Base(LinkTarget(key)) == ImageName(key)
  {
    var name := ImageName(key);
    assert forall i :: 0 <= i < |name| ==> name[i] != '/' by {
      assert forall i :: 8 <= i < 8 + |key| ==> name[i] == key[i - 8];
    }
    assert name[|name| - 1] == 's' && "../" + name == LinkTarget(key);
    assert TrimSlashes("../" + name) == "../" + name;
    AfterSlashIs("../", name);
  }

  /** Every key that can be written is read back from its link, whatever archive it was taken from. */
  lemma KeyRoundTrip(archive: string)
    requires ArchiveKey(archive).Some?
    ensures KeyFromImageName(Base(LinkTarget(ArchiveKey(archive).value))) == ArchiveKey(archive)
  {
    LinkLeadsToImage(ArchiveKey(archive).value);
    ImageNameReadsBack(ArchiveKey(archive).value);
  }

  /** Only the image of a key reads back as that key: no two archives of different keys share an image. */
  lemma ImagesAreDistinct(name: string, key: string)
    requires KeyFromImageName(name) == Some(key)
    ensures name == "archive-" + key + ".erofs" == ImageName(key)
  {
    var rest := name[|"archive-"|..];
    assert name == "archive-" + rest && rest == key + ".erofs";
  }

  /** The two directions are not symmetric: an image's name is never taken for an archive. */
  lemma ImageIsNoArchive(key: string)
    requires IsKey(key)
    ensures ArchiveKey(ImageName(key)) == None
  {
    var name := ImageName(key);
    assert name[7] == '-';
    var cut := Before(Base(name), '.');
    assert forall i :: 0 <= i < |name| ==> name[i] != '/' by {
      assert forall i :: 8 <= i < 8 + |key| ==> name[i] == key[i - 8];
    }
    NoSlashAtAll(name);
    assert |cut| <= 7 ==> !IsKey(cut);
    assert |cut| > 7 ==> cut[7] == '-';
  }

  lemma {:induction false} NoSlashAtAll(name: string)
    requires '/' !in name
    ensures AfterLastSlash(name) == name && TrimSlashes(name) == name
  {
    if name == "" {
    } else {
      NoSlashAtAll(name[..|name| - 1]);
      assert name[..|name| - 1] + [name[|name| - 1]] == name;
    }
  }
}
