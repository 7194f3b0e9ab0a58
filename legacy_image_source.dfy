/** The picture folder of the legacy loop (auto_ai_influencer/image_source.py):
    the sorted list of supported images and the first one not used yet.
    A directory listing is a value: whether the folder exists and its
    entries in any order. */
module LegacyImageSource {
  import opened Wrappers
  import opened Text

  const SupportedSuffixes: set<string> := {".jpg", ".jpeg", ".png", ".gif", ".webp"}

  /** One entry of the folder: its name and whether it is a regular file. */
  datatype Entry = Entry(name: string, isFile: bool)

  /** The folder `root`: whether it exists and what `iterdir()` yields. */
  datatype Directory = Directory(root: string, present: bool, entries: seq<Entry>)

  /** A regular file whose suffix, lower-cased, is supported. */
  predicate IsImage(e: Entry) {
    e.isFile && Lower(Suffix(e.name)) in SupportedSuffixes
  }

  /** `str(Path(root) / name)`. */
  function Child(root: string, name: string): string {
    if root == [] || root == "." then name
    else if root[|root| - 1] == '/' then root + name
    else root + "/" + name
  }

  /** The paths of the image entries, in listing order. */
  function ImagePaths(root: string, entries: seq<Entry>): (r: seq<string>)
    ensures forall p :: p in r <==> exists e :: e in entries && IsImage(e) && p == Child(root, e.name)
  {
    if entries == [] then []
    else
      var rest := ImagePaths(root, entries[1..]);
      assert forall e :: e in entries <==> e == entries[0] || e in entries[1..];
      if IsImage(entries[0]) then [Child(root, entries[0].name)] + rest else rest
  }

  /** `list_images`: the supported images of the folder in sorted order;
      nothing at all when the folder does not exist. */
  function ListImages(d: Directory): (r: seq<string>)
    ensures SortedBy(r, Identity)
    ensures !d.present ==> r == []
  {
    if !d.present then [] else Sorted(ImagePaths(d.root, d.entries))
  }

  /** The listing holds each supported image of the folder as often as the
      folder does, and nothing else. */
  lemma ListImagesContents(d: Directory)
    ensures d.present ==> multiset(ListImages(d)) == multiset(ImagePaths(d.root, d.entries))
    ensures forall p :: p in ListImages(d) <==> d.present && exists e :: e in d.entries && IsImage(e) && p == Child(d.root, e.name)
  {
    if d.present {
      var xs := ImagePaths(d.root, d.entries);
      var r := ListImages(d);
      forall p ensures p in r <==> p in xs {
        assert p in r <==> p in multiset(r);
        assert p in xs <==> p in multiset(xs);
      }
    }
  }

  /** `xs[i]` is `v` and every element before it is in `used`. */
  predicate FirstAt(xs: seq<string>, used: set<string>, i: int, v: string) {
    0 <= i < |xs| && xs[i] == v && forall j :: 0 <= j < i ==> xs[j] in used
  }

  /** The first element of `xs` that is not in `used`. */
  function FirstUnused(xs: seq<string>, used: set<string>): Option<string> {
    if xs == [] then None
    else if xs[0] !in used then Some(xs[0])
    else FirstUnused(xs[1..], used)
  }

  /** `FirstUnused` finds nothing exactly when every element is used, and
      otherwise an unused element all of whose predecessors are used. */
  lemma {:induction false} FirstUnusedIsFirst(xs: seq<string>, used: set<string>)
    ensures FirstUnused(xs, used).None? <==> forall i :: 0 <= i < |xs| ==> xs[i] in used
    ensures FirstUnused(xs, used).Some? ==>
      FirstUnused(xs, used).value !in used && exists i :: FirstAt(xs, used, i, FirstUnused(xs, used).value)
  {
    if xs != [] {
      if xs[0] !in used {
        assert FirstAt(xs, used, 0, xs[0]);
      } else {
        FirstUnusedIsFirst(xs[1..], used);
        assert forall i :: 0 < i < |xs| ==> xs[i] == xs[1..][i - 1];
        var r := FirstUnused(xs[1..], used);
        if r.Some? {
          var i :| FirstAt(xs[1..], used, i, r.value);
          assert FirstAt(xs, used, i + 1, r.value);
        }
      }
    }
  }

  /** `next_image(used_paths)`: the first image of the listing not used yet. */
  function NextImage(d: Directory, used: set<string>): Option<string> {
    FirstUnused(ListImages(d), used)
  }

  /** `next_image` yields an image of the folder that has not been used,
      and nothing exactly when every image has been used. */
  lemma NextImageUnused(d: Directory, used: set<string>)
    ensures NextImage(d, used).Some? ==> NextImage(d, used).value in ListImages(d) && NextImage(d, used).value !in used
    ensures NextImage(d, used).None? <==> forall p :: p in ListImages(d) ==> p in used
  {
    FirstUnusedIsFirst(ListImages(d), used);
    var r := NextImage(d, used);
    if r.Some? {
      var i :| FirstAt(ListImages(d), used, i, r.value);
    }
  }

  /** The image returned is the smallest unused one, and it is a supported
      file of the folder. */
  lemma NextImageIsSmallest(d: Directory, used: set<string>)
    ensures NextImage(d, used).Some? ==>
      && d.present
      && (exists e :: e in d.entries && IsImage(e) && NextImage(d, used).value == Child(d.root, e.name))
      && forall p :: p in ListImages(d) && p !in used ==> LexLe(NextImage(d, used).value, p)
  {
    var xs := ListImages(d);
    var r := NextImage(d, used);
    ListImagesContents(d);
    FirstUnusedIsFirst(xs, used);
    if r.Some? {
      var i :| FirstAt(xs, used, i, r.value);
      assert r.value in xs;
      var e :| e in d.entries && IsImage(e) && r.value == Child(d.root, e.name);
      forall p | p in xs && p !in used ensures LexLe(r.value, p) {
        var k :| 0 <= k < |xs| && xs[k] == p;
        if k == i { LexLeRefl(p); }
      }
    }
  }

  /** A missing folder yields no image and raises nothing. */
  lemma MissingFolderIsEmpty(root: string, entries: seq<Entry>, used: set<string>)
    ensures ListImages(Directory(root, false, entries)) == []
    ensures NextImage(Directory(root, false, entries), used).None?
  {
  }
}
