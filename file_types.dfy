/**
  The lookup half of `sendFileAuto` in index.js: from a file path to the MIME type
  announced to Telegram and to the kind of upload (document, photo, audio, video)
  used to send it. POSIX path rules, as Node's `path` module applies them.
*/
module FileTypes {
  import opened Wrappers
  import opened Text

  datatype SendKind = Document | Photo | Audio | Video

  /** `mimeTypes`, in the order its object literal lists the extensions. */
  const MimeTypes: seq<(string, string)> := [
    ("pdf", "application/pdf"),
    ("docx", "application/vnd.openxmlformats-" + "officedocument.wordprocessingml." + "document"),
    ("doc", "application/msword"),
    ("png", "image/png"),
    ("jpg", "image/jpeg"),
    ("jpeg", "image/jpeg"),
    ("gif", "image/gif"),
    ("mp3", "audio/mpeg"),
    ("wav", "audio/wav"),
    ("mp4", "video/mp4"),
    ("mov", "video/quicktime")
  ]

  /** `telegramTypes`, in the order its object literal lists the extensions. */
  const TelegramTypes: seq<(string, SendKind)> := [
    ("pdf", Document), ("docx", Document), ("doc", Document),
    ("png", Photo), ("jpg", Photo), ("jpeg", Photo), ("gif", Photo),
    ("mp3", Audio), ("wav", Audio),
    ("mp4", Video), ("mov", Video)
  ]

  /** The content type used for an extension neither table knows. */
  const DefaultContentType: string := "application/octet-stream"

  /** `table[key]` for an object literal: the value listed under `key`, if any. */
  function Get<V>(table: seq<(string, V)>, key: string): Option<V> {
    if table == [] then None
    else if table[0].0 == key then Some(table[0].1)
    else Get(table[1..], key)
  }

  /** A lookup finds a value exactly when some entry carries the key, and what it
      finds is the value of the first such entry. */
  lemma {:induction false} GetFindsFirst<V>(table: seq<(string, V)>, key: string)
    ensures Get(table, key).None? <==> forall i :: 0 <= i < |table| ==> table[i].0 != key
    ensures Get(table, key).Some? ==> exists i :: (0 <= i < |table| && table[i] == (key, Get(table, key).value)
      && forall j :: 0 <= j < i ==> table[j].0 != key)
  {
    if table != [] && table[0].0 != key {
      GetFindsFirst(table[1..], key);
      if Get(table, key).Some? {
        var i :| 0 <= i < |table| - 1 && table[1..][i] == (key, Get(table, key).value)
          && forall j :: 0 <= j < i ==> table[1..][j].0 != key;
        assert table[i + 1] == (key, Get(table, key).value);
        assert forall j :: 0 <= j < i + 1 ==> table[j].0 != key by {
          forall j | 0 <= j < i + 1 ensures table[j].0 != key {
            if j > 0 { assert table[j] == table[1..][j - 1]; }
          }
        }
      }
    } else if table != [] {
      assert table[0] == (key, Get(table, key).value);
    }
  }

  function StripTrailingSlashes(p: string): (r: string)
    ensures |r| <= |p| && r == p[..|r|]
    ensures r == [] || r[|r| - 1] != '/'
    ensures forall i :: |r| <= i < |p| ==> p[i] == '/'
  {
    if p != [] && p[|p| - 1] == '/' then StripTrailingSlashes(p[..|p| - 1]) else p
  }

  /** Position of the last `c` in `s`, if any. */
  function LastIndexOf(s: string, c: char): (r: Option<nat>)
    ensures r.None? ==> forall i :: 0 <= i < |s| ==> s[i] != c
    ensures r.Some? ==> r.value < |s| && s[r.value] == c
    ensures r.Some? ==> forall i :: r.value < i < |s| ==> s[i] != c
  {
    if s == [] then None
    else if s[|s| - 1] == c then Some(|s| - 1)
    else LastIndexOf(s[..|s| - 1], c)
  }

  /** `path.basename(p)`: the last component, trailing slashes ignored. */
  function BaseName(p: string): (b: string)
    ensures forall i :: 0 <= i < |b| ==> b[i] != '/'
  {
    var q := StripTrailingSlashes(p);
    match LastIndexOf(q, '/')
    case None => q
    case Some(j) => q[j + 1..]
  }

  /** `path.extname(p).slice(1)`: what follows the last dot of the base name; empty
      when there is no dot, when the only dot opens the name (".bashrc"), and for "..". */
  function ExtName(p: string): (e: string)
    ensures forall i :: 0 <= i < |e| ==> e[i] != '.' && e[i] != '/'
  {
    var b := BaseName(p);
    match LastIndexOf(b, '.')
    case None => ""
    case Some(j) => if j == 0 || b == ".." then "" else b[j + 1..]
  }

  datatype Delivery = Delivery(filename: string, contentType: string, kind: SendKind)

  /** How a MIME type's major type is shown in a chat: images as photos, audio as
      audio, video as video, anything else as a document. */
  function KindForContentType(t: string): SendKind {
    if StartsWith(t, "image/") then Photo
    else if StartsWith(t, "audio/") then Audio
    else if StartsWith(t, "video/") then Video
    else Document
  }

  /** The content type `mimeTypes[ext] || "application/octet-stream"`. */
  function ContentTypeFor(ext: string): string {
    Get(MimeTypes, ext).GetOr(DefaultContentType)
  }

  /** The upload kind `telegramTypes[ext] || "document"`. */
  function KindFor(ext: string): SendKind {
    Get(TelegramTypes, ext).GetOr(Document)
  }

  /** The first entry of a MIME table agrees with the first entry of an upload table. */
  predicate EntryMatch(m: (string, string), t: (string, SendKind)) {
    m.0 == t.0 && t.1 == KindForContentType(m.1) && m.1 != DefaultContentType
  }

  /** Two tables list the same keys in the same order, every upload kind is the one
      its MIME type calls for, and no MIME type is the default one. */
  predicate TablesMatch(m: seq<(string, string)>, t: seq<(string, SendKind)>)
    decreases |m|
  {
    if m == [] then t == []
    else t != [] && EntryMatch(m[0], t[0]) && TablesMatch(m[1..], t[1..])
  }

  lemma {:induction false} LookupsMatch(m: seq<(string, string)>, t: seq<(string, SendKind)>, key: string)
    requires TablesMatch(m, t)
    ensures Get(m, key).Some? <==> Get(t, key).Some?
    ensures Get(m, key).Some? ==> Get(t, key).value == KindForContentType(Get(m, key).value)
    ensures Get(m, key).Some? ==> Get(m, key).value != DefaultContentType
    decreases |m|
  {
    if m != [] && m[0].0 != key {
      LookupsMatch(m[1..], t[1..], key);
    }
  }

  lemma {:induction false} MatchFrom(m: seq<(string, string)>, t: seq<(string, SendKind)>)
    requires |m| == |t| && forall i :: 0 <= i < |m| ==> EntryMatch(m[i], t[i])
    ensures TablesMatch(m, t)
    decreases |m|
  {
    if m != [] {
      MatchFrom(m[1..], t[1..]);
    }
  }

  /** An "application/..." type is sent as a document. */
  lemma ApplicationIsDocument(c: string)
    requires |c| >= 2 && c[0] == 'a' && c[1] == 'p'
    ensures KindForContentType(c) == Document
  {
    assert |c| >= 6 ==> c[..6][0] == 'a' && c[..6][1] == 'p';
  }

  lemma DocumentEntriesMatch()
    ensures forall i :: 0 <= i < 3 ==> EntryMatch(MimeTypes[i], TelegramTypes[i])
  {
    var m, d := MimeTypes, DefaultContentType;
    assert d[12] == 'o' && m[0].1[12] != 'o' && m[1].1[12] != 'o' && m[2].1[12] != 'o';
    ApplicationIsDocument(m[0].1);
    ApplicationIsDocument(m[1].1);
    ApplicationIsDocument(m[2].1);
  }

  lemma ImageEntriesMatch()
    ensures forall i :: 3 <= i < 7 ==> EntryMatch(MimeTypes[i], TelegramTypes[i])
  {
    var m := MimeTypes;
    assert m[3].1[..6] == m[4].1[..6] == m[5].1[..6] == m[6].1[..6] == "image/";
  }

  lemma MediaEntriesMatch()
    ensures forall i :: 7 <= i < 11 ==> EntryMatch(MimeTypes[i], TelegramTypes[i])
  {
    var m := MimeTypes;
    assert m[7].1[..6] == m[8].1[..6] == "audio/" && m[7].1[0] == m[8].1[0] == 'a';
    assert m[9].1[..6] == m[10].1[..6] == "video/" && m[9].1[0] == m[10].1[0] == 'v';
  }

  /** The two tables know the same extensions, and each table entry's upload kind
      is the one its MIME type's major type calls for. */
  lemma TablesAgree(ext: string)
    ensures Get(MimeTypes, ext).Some? <==> Get(TelegramTypes, ext).Some?
    ensures KindFor(ext) == KindForContentType(ContentTypeFor(ext))
    ensures ContentTypeFor(ext) == DefaultContentType <==> Get(MimeTypes, ext).None?
  {
    DocumentEntriesMatch();
    ImageEntriesMatch();
    MediaEntriesMatch();
    MatchFrom(MimeTypes, TelegramTypes);
    LookupsMatch(MimeTypes, TelegramTypes, ext);
  }

  /** What `sendFileAuto(bot, chatId, path)` sends: the file name, the content
      type and the upload kind (`switch (sendType)`, whose default is a document). */
  function FileDelivery(path: string): (d: Delivery)
    ensures d.filename == BaseName(path)
    ensures d.kind == KindForContentType(d.contentType)
    ensures d.contentType == DefaultContentType <==> Get(MimeTypes, Lower(ExtName(path))).None?
    ensures Get(MimeTypes, Lower(ExtName(path))).None? ==> d.kind == Document
  {
    var ext := Lower(ExtName(path));
    TablesAgree(ext);
    Delivery(BaseName(path), ContentTypeFor(ext), KindFor(ext))
  }

  lemma {:induction false} LastIndexOfAfter(x: string, y: string, c: char)
    requires x != [] && x[|x| - 1] == c
    requires forall i :: 0 <= i < |y| ==> y[i] != c
    ensures LastIndexOf(x + y, c) == Some(|x| - 1)
  {
    if y != [] {
      var s := x + y;
      assert s[..|s| - 1] == x + y[..|y| - 1];
      LastIndexOfAfter(x, y[..|y| - 1], c);
    }
  }

  /** The base name of "dir/name" is `name`. */
  lemma BaseNameOfFile(dir: string, name: string)
    requires dir == [] || dir[|dir| - 1] == '/'
    requires name != [] && name[|name| - 1] != '/'
    requires forall i :: 0 <= i < |name| ==> name[i] != '/'
    ensures BaseName(dir + name) == name
  {
    var p := dir + name;
    assert StripTrailingSlashes(p) == p;
    if dir == [] {
      assert p == name;
    } else {
      LastIndexOfAfter(dir, name, '/');
      assert p[|dir|..] == name;
    }
  }

  /** The extension read off a known base name and the position of its last dot. */
  lemma ExtNameFromBase(p: string, j: nat)
    requires LastIndexOf(BaseName(p), '.') == Some(j) && 0 < j && BaseName(p) != ".."
    ensures ExtName(p) == BaseName(p)[j + 1..]
  {
  }

  /** A file name "stem.e": no slash in it, its last dot right after the stem. */
  lemma FileNameShape(stem: string, e: string)
    requires stem != [] && forall i :: 0 <= i < |stem| ==> stem[i] != '/'
    requires forall i :: 0 <= i < |e| ==> e[i] != '.' && e[i] != '/'
    ensures var name := stem + "." + e;
      && name[|name| - 1] != '/'
      && (forall i :: 0 <= i < |name| ==> name[i] != '/')
      && LastIndexOf(name, '.') == Some(|stem|)
      && name[|stem| + 1..] == e
  {
    var name := stem + "." + e;
    forall i | 0 <= i < |name| ensures name[i] != '/' {
      if i < |stem| {
        assert name[i] == stem[i];
      } else if i > |stem| {
        assert name[i] == e[i - |stem| - 1];
      }
    }
    LastIndexOfAfter(stem + ".", e, '.');
  }

  /** The extension of "dir/stem.e" is `e`, for a stem without slashes and an
      extension without dots or slashes. */
  lemma ExtNameOfFile(dir: string, stem: string, e: string)
    requires dir == [] || dir[|dir| - 1] == '/'
    requires stem != [] && forall i :: 0 <= i < |stem| ==> stem[i] != '/'
    requires forall i :: 0 <= i < |e| ==> e[i] != '.' && e[i] != '/'
    ensures ExtName(dir + stem + "." + e) == e
  {
    var name := stem + "." + e;
    var p := dir + stem + "." + e;
    assert p == dir + name;
    FileNameShape(stem, e);
    BaseNameOfFile(dir, name);
    if name != ".." {
      ExtNameFromBase(p, |stem|);
    }
  }

  lemma LowerKeepsPathChars(e: string)
    requires forall i :: 0 <= i < |e| ==> e[i] != '.' && e[i] != '/'
    ensures forall i :: 0 <= i < |Lower(e)| ==> Lower(e)[i] != '.' && Lower(e)[i] != '/'
  {
    var le := Lower(e);
    forall i | 0 <= i < |le| ensures le[i] != '.' && le[i] != '/' {
      assert le[i] == LowerChar(e[i]);
    }
  }

  /** Paths whose extensions agree after lower-casing are sent alike. */
  lemma SameFoldedExtension(p: string, q: string)
    requires Lower(ExtName(p)) == Lower(ExtName(q))
    ensures FileDelivery(p).contentType == FileDelivery(q).contentType
    ensures FileDelivery(p).kind == FileDelivery(q).kind
  {
  }

}

/** Properties of the lookup over whole paths. */
module FileTypeLaws {
  import opened Text
  import opened FileTypes

  /** A path's extension decides its content type and upload kind. */
  lemma SentByExtension(p: string, e: string)
    requires ExtName(p) == e
    ensures Get(MimeTypes, Lower(e)).None? ==> FileDelivery(p).contentType == DefaultContentType
    ensures Get(MimeTypes, Lower(e)).None? ==> FileDelivery(p).kind == Document
    ensures FileDelivery(p).contentType == ContentTypeFor(Lower(e))
  {
  }

  /** `sendFileAuto` lower-cases the extension: "dir/x.JPG" and "dir/x.jpg" are sent alike. */
  lemma DeliveryIgnoresCase(p: string, q: string, dir: string, stem: string, e: string)
    requires p == dir + stem + "." + e && q == dir + stem + "." + Lower(e)
    requires dir == [] || dir[|dir| - 1] == '/'
    requires stem != [] && forall i :: 0 <= i < |stem| ==> stem[i] != '/'
    requires forall i :: 0 <= i < |e| ==> e[i] != '.' && e[i] != '/'
    ensures FileDelivery(p).contentType == FileDelivery(q).contentType
    ensures FileDelivery(p).kind == FileDelivery(q).kind
  {
    LowerKeepsPathChars(e);
    ExtNameOfFile(dir, stem, e);
    ExtNameOfFile(dir, stem, Lower(e));
    LowerIdempotent(e);
    SameFoldedExtension(p, q);
  }

  /** A file "dir/stem.e" whose extension neither table lists goes out as a
      generic document. */
  lemma UnknownExtensionIsDocument(p: string, dir: string, stem: string, e: string)
    requires p == dir + stem + "." + e
    requires dir == [] || dir[|dir| - 1] == '/'
    requires stem != [] && forall i :: 0 <= i < |stem| ==> stem[i] != '/'
    requires forall i :: 0 <= i < |e| ==> e[i] != '.' && e[i] != '/'
    requires Get(MimeTypes, Lower(e)).None?
    ensures FileDelivery(p).contentType == DefaultContentType
    ensures FileDelivery(p).kind == Document
  {
    ExtNameOfFile(dir, stem, e);
    SentByExtension(p, e);
  }

  /** The `/sendtest` file, ./test.txt, has an unknown extension: it goes out as a
      generic document. */
  lemma TestFileIsDocument(p: string)
    requires p == "./test.txt"
    ensures FileDelivery(p).contentType == DefaultContentType
    ensures FileDelivery(p).kind == Document
  {
    var dir, stem, e := "./", "test", "txt";
    assert dir[|dir| - 1] == '/';
    assert forall i :: 0 <= i < |stem| ==> stem[i] != '/';
    assert forall i :: 0 <= i < |e| ==> e[i] != '.' && e[i] != '/';
    assert Lower(e) == e by { LowerIdempotent(e); }
    forall i | 0 <= i < |MimeTypes| ensures MimeTypes[i].0 != e {
      assert MimeTypes[i].0[0] != e[0];
    }
    GetFindsFirst(MimeTypes, e);
    assert p == dir + stem + "." + e;
    UnknownExtensionIsDocument(p, dir, stem, e);
  }
}
