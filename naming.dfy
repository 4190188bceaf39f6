/** How the two upload paths name the objects they store: the extension taken
    from the picked file's name, and the key built from the user id, a random
    token and that extension. */
module Naming {

  /** `name.split('.').pop()`: the text after the last '.', or the whole name
      when it holds no '.'. */
  function Extension(name: string): (ext: string)
    decreases |name|
  {
    if name == [] then []
    else if name[|name| - 1] == '.' then []
    else Extension(name[..|name| - 1]) + [name[|name| - 1]]
  }

  /** The extension is the longest suffix of the name free of '.': it holds
      no '.', it ends the name, and it is either the whole name or preceded
      by a '.'. */
  lemma {:induction false} ExtensionIsLastSegment(name: string)
    ensures var ext := Extension(name);
      '.' !in ext
      && |ext| <= |name| && ext == name[|name| - |ext|..]
      && (|ext| < |name| ==> name[|name| - |ext| - 1] == '.')
      && ('.' !in name ==> ext == name)
    decreases |name|
  {
    if name != [] && name[|name| - 1] != '.' {
      var init := name[..|name| - 1];
      ExtensionIsLastSegment(init);
      assert name == init + [name[|name| - 1]];
    }
  }

  /** Whatever stands before the last '.', the extension is what follows it. */
  lemma {:induction false} ExtensionAfterLastDot(prefix: string, ext: string)
    requires '.' !in ext
    ensures Extension(prefix + "." + ext) == ext
    decreases |ext|
  {
    var name := prefix + "." + ext;
    if ext != [] {
      var init := ext[..|ext| - 1];
      assert name[..|name| - 1] == prefix + "." + init;
      assert name[|name| - 1] == ext[|ext| - 1];
      ExtensionAfterLastDot(prefix, init);
      assert ext == init + [ext[|ext| - 1]];
    }
  }

  /** The key the profile page stores an avatar under: `{userId}-{token}.{ext}`. */
  function AvatarKey(userId: string, token: string, ext: string): (key: string)
    ensures |key| >= |userId| + |ext| + 2
    ensures key[..|userId| + 1] == userId + "-"
    ensures key[|userId| + 1..|key| - |ext| - 1] == token
  {
    userId + "-" + token + "." + ext
  }

  /** The path the image widget stores an avatar under: `{userId}/{token}.{ext}`. */
  function ImagePath(userId: string, token: string, ext: string): (path: string)
    ensures |path| >= |userId| + |ext| + 2
    ensures path[..|userId| + 1] == userId + "/"
    ensures path[|userId| + 1..|path| - |ext| - 1] == token
    ensures path != ""
  {
    userId + "/" + token + "." + ext
  }

  /** A stored avatar keeps the extension of the file it was made from. */
  lemma AvatarKeyKeepsExtension(userId: string, token: string, fileName: string)
    ensures Extension(AvatarKey(userId, token, Extension(fileName))) == Extension(fileName)
  {
    ExtensionIsLastSegment(fileName);
    ExtensionAfterLastDot(userId + "-" + token, Extension(fileName));
  }

  lemma ImagePathKeepsExtension(userId: string, token: string, fileName: string)
    ensures Extension(ImagePath(userId, token, Extension(fileName))) == Extension(fileName)
  {
    ExtensionIsLastSegment(fileName);
    ExtensionAfterLastDot(userId + "/" + token, Extension(fileName));
  }

  /** For one user and one extension, different tokens give different keys:
      a fresh token never overwrites an earlier avatar of the same user. */
  lemma AvatarKeyDistinguishesTokens(userId: string, t1: string, t2: string, ext: string)
    requires t1 != t2
    ensures AvatarKey(userId, t1, ext) != AvatarKey(userId, t2, ext)
  {
  }

  lemma ImagePathDistinguishesTokens(userId: string, t1: string, t2: string, ext: string)
    requires t1 != t2
    ensures ImagePath(userId, t1, ext) != ImagePath(userId, t2, ext)
  {
  }
}
