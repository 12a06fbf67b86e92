/**
 * The one-off image migration (backend/scripts/migrateImages.js): each menu
 * item is paired with the first image file whose normalised stem equals its
 * normalised name, and matched items get the uploaded image's URL. The
 * directory listing, the stem of a file name (`path.extname` and `replace`)
 * and the URL the upload returns are parameters.
 */
module MigrateImages {
  import opened Base
  import opened Grouping

  /** The characters `[a-z0-9]` that the normaliser keeps. */
  predicate Kept(c: char) {
    'a' <= c <= 'z' || '0' <= c <= '9'
  }

  /** `replace(/[^a-z0-9]/g, "")`: drops every other character. */
  function KeepKept(s: string): (r: string)
    ensures |r| <= |s|
    ensures forall i :: 0 <= i < |r| ==> Kept(r[i])
  {
    if s == [] then [] else (if Kept(s[0]) then [s[0]] else []) + KeepKept(s[1..])
  }

  /** `normalize`: lower-case, then keep letters a-z and digits. */
  function Normalize(s: string): (r: string)
    ensures forall i :: 0 <= i < |r| ==> Kept(r[i])
    ensures |r| <= |s|
  {
    KeepKept(Lower(s))
  }

  lemma {:induction false} KeepKeptAppend(a: string, b: string)
    ensures KeepKept(a + b) == KeepKept(a) + KeepKept(b)
  {
    if a == [] {
      assert a + b == b;
    } else {
      assert (a + b)[0] == a[0] && (a + b)[1..] == a[1..] + b;
      KeepKeptAppend(a[1..], b);
    }
  }

  lemma {:induction false} KeepKeptAll(s: string)
    requires forall i :: 0 <= i < |s| ==> Kept(s[i])
    ensures KeepKept(s) == s
  {
    if s != [] {
      KeepKeptAll(s[1..]);
    }
  }

  /** Normalising a normalised name changes nothing. */
  lemma NormalizeIdempotent(s: string)
    ensures Normalize(Normalize(s)) == Normalize(s)
  {
    var n := Normalize(s);
    assert Lower(n) == n;
    KeepKeptAll(n);
  }

  /** Upper and lower case letters normalise alike. */
  lemma NormalizeIgnoresCase(s: string)
    ensures Normalize(Lower(s)) == Normalize(s)
  {
    LowerIdempotent(s);
  }

  /** Normalising piecewise is normalising the whole. */
  lemma NormalizeAppend(a: string, b: string)
    ensures Normalize(a + b) == Normalize(a) + Normalize(b)
  {
    LowerAppend(a, b);
    KeepKeptAppend(Lower(a), Lower(b));
  }

  /** A character that lower-cases to neither a letter a-z nor a digit (a space, a hyphen, a dot) is ignored. */
  lemma NormalizeSkips(a: string, c: char, b: string)
    requires !Kept(LowerChar(c))
    ensures Normalize(a + [c] + b) == Normalize(a + b)
  {
    NormalizeAppend(a + [c], b);
    NormalizeAppend(a, [c]);
    NormalizeAppend(a, b);
    assert Lower([c]) == [LowerChar(c)];
    assert Normalize([c]) == [];
  }

  /** The file the inner loop settles on: the first whose normalised stem equals the normalised name. */
  function MatchOf(name: string, images: seq<string>, stem: string -> string): (r: Option<string>)
    ensures r.Some? ==> exists k :: 0 <= k < |images| && images[k] == r.value &&
                                    Normalize(stem(images[k])) == Normalize(name) &&
                                    forall j :: 0 <= j < k ==> Normalize(stem(images[j])) != Normalize(name)
    ensures r.None? ==> forall k :: 0 <= k < |images| ==> Normalize(stem(images[k])) != Normalize(name)
  {
    match FirstIndex(images, (img: string) => Normalize(stem(img)) == Normalize(name))
    case Some(k) => Some(images[k])
    case None => None
  }

  /** The `for (const img of allImages)` loop with its `break` on the first match. */
  method FindImage(name: string, images: seq<string>, stem: string -> string) returns (matched: Option<string>)
    ensures matched == MatchOf(name, images, stem)
  {
    var n1 := Normalize(name);
    matched := None;
    var i := 0;
    while i < |images|
      invariant 0 <= i <= |images|
      invariant forall j :: 0 <= j < i ==> Normalize(stem(images[j])) != n1
    {
      var n2 := Normalize(stem(images[i]));
      if n1 == n2 {
        matched := Some(images[i]);
        assert FirstIndex(images, (img: string) => Normalize(stem(img)) == Normalize(name)) == Some(i) by {
          FirstIndexIs(images, (img: string) => Normalize(stem(img)) == Normalize(name), i);
        }
        return;
      }
      i := i + 1;
    }
  }

  /** The first satisfying position is what `FirstIndex` finds. */
  lemma {:induction false} FirstIndexIs<T>(s: seq<T>, p: T -> bool, i: nat)
    requires i < |s| && p(s[i]) && forall j :: 0 <= j < i ==> !p(s[j])
    ensures FirstIndex(s, p) == Some(i)
  {
    if i > 0 {
      FirstIndexIs(s[1..], p, i - 1);
    }
  }

  /** A menu document as the script reads it: its id and whatever `name` holds. */
  datatype MenuDoc = MenuDoc(id: nat, name: Option<string>)

  /** `Menu.updateOne({ _id }, { $set: { image } })`. */
  datatype Update = Update(id: nat, image: string)

  /** `item.name || ""`. */
  function NameOf(item: MenuDoc): string {
    OrElse(item.name, "")
  }

  /** Whether the item is updated: `!matchedFile` skips it. */
  predicate Matched(item: MenuDoc, images: seq<string>, stem: string -> string) {
    Truthy(MatchOf(NameOf(item), images, stem))
  }

  /** The updates of the whole run, in menu order: one per matched item, with the URL of its upload. */
  function Planned(items: seq<MenuDoc>, images: seq<string>, stem: string -> string, url: string -> string): (r: seq<Update>)
    ensures |r| <= |items|
  {
    if items == [] then []
    else
      var init, last := items[..|items| - 1], items[|items| - 1];
      Planned(init, images, stem, url) + Entry(last, images, stem, url)
  }

  /** The update for one item: none when it is skipped. */
  function Entry(item: MenuDoc, images: seq<string>, stem: string -> string, url: string -> string): (r: seq<Update>)
    ensures |r| <= 1 && forall u :: u in r ==> u.id == item.id
  {
    if Matched(item, images, stem) then [Update(item.id, url(MatchOf(NameOf(item), images, stem).value))] else []
  }

  /**
   * The script's main loop: for each menu item, find its image; skip it
   * without a match, otherwise record the update to the upload's URL.
   */
  method Migrate(items: seq<MenuDoc>, images: seq<string>, stem: string -> string, url: string -> string)
    returns (updates: seq<Update>)
    ensures updates == Planned(items, images, stem, url)
  {
    updates := [];
    for i := 0 to |items|
      invariant updates == Planned(items[..i], images, stem, url)
    {
      assert items[..i + 1][..i] == items[..i];
      var item := items[i];
      var name := OrElse(item.name, "");
      var matchedFile := FindImage(name, images, stem);
      if !Truthy(matchedFile) {
        continue;
      }
      updates := updates + [Update(item.id, url(matchedFile.value))];
    }
    assert items[..|items|] == items;
  }

  /**
   * An update names a menu item that has a match, and carries the URL of
   * that item's first matching file; every matched item has one.
   */
  lemma PlannedFacts(items: seq<MenuDoc>, images: seq<string>, stem: string -> string, url: string -> string)
    ensures forall u :: u in Planned(items, images, stem, url) ==>
              exists k :: 0 <= k < |items| && items[k].id == u.id && Matched(items[k], images, stem) &&
                          u.image == url(MatchOf(NameOf(items[k]), images, stem).value)
    ensures forall k :: 0 <= k < |items| && Matched(items[k], images, stem) ==>
              Update(items[k].id, url(MatchOf(NameOf(items[k]), images, stem).value)) in Planned(items, images, stem, url)
  {
    PlannedSound(items, images, stem, url);
    PlannedComplete(items, images, stem, url);
  }

  lemma {:induction false} PlannedSound(items: seq<MenuDoc>, images: seq<string>, stem: string -> string, url: string -> string)
    ensures forall u :: u in Planned(items, images, stem, url) ==>
              exists k :: 0 <= k < |items| && items[k].id == u.id && Matched(items[k], images, stem) &&
                          u.image == url(MatchOf(NameOf(items[k]), images, stem).value)
  {
    if items != [] {
      var init, last := items[..|items| - 1], items[|items| - 1];
      PlannedSound(init, images, stem, url);
      var p, tail := Planned(init, images, stem, url), Entry(last, images, stem, url);
      assert Planned(items, images, stem, url) == p + tail;
      forall u: Update | u in p + tail
        ensures exists k :: 0 <= k < |items| && items[k].id == u.id && Matched(items[k], images, stem) &&
                            u.image == url(MatchOf(NameOf(items[k]), images, stem).value)
      {
        if u in p {
          var k :| 0 <= k < |init| && init[k].id == u.id && Matched(init[k], images, stem) &&
                   u.image == url(MatchOf(NameOf(init[k]), images, stem).value);
          assert items[k] == init[k];
        } else {
          assert u in tail;
          assert items[|items| - 1] == last;
        }
      }
    }
  }

  lemma {:induction false} PlannedComplete(items: seq<MenuDoc>, images: seq<string>, stem: string -> string, url: string -> string)
    ensures forall k :: 0 <= k < |items| && Matched(items[k], images, stem) ==>
              Update(items[k].id, url(MatchOf(NameOf(items[k]), images, stem).value)) in Planned(items, images, stem, url)
  {
    if items != [] {
      var init, last := items[..|items| - 1], items[|items| - 1];
      PlannedComplete(init, images, stem, url);
      var p, tail := Planned(init, images, stem, url), Entry(last, images, stem, url);
      assert Planned(items, images, stem, url) == p + tail;
      forall k | 0 <= k < |items| && Matched(items[k], images, stem)
        ensures Update(items[k].id, url(MatchOf(NameOf(items[k]), images, stem).value)) in p + tail
      {
        if k < |init| {
          assert items[k] == init[k];
        } else {
          assert items[k] == last;
        }
      }
    }
  }

  /** An id that no menu item carries gets no update. */
  lemma PlannedAvoids(items: seq<MenuDoc>, images: seq<string>, stem: string -> string, url: string -> string, id: nat)
    requires forall k :: 0 <= k < |items| ==> items[k].id != id
    ensures forall u :: u in Planned(items, images, stem, url) ==> u.id != id
  {
    PlannedFacts(items, images, stem, url);
  }

  /** Items with no matching file get no update. */
  lemma UnmatchedSkipped(items: seq<MenuDoc>, images: seq<string>, stem: string -> string, url: string -> string, k: nat)
    requires k < |items| && !Matched(items[k], images, stem)
    requires forall j :: 0 <= j < |items| && j != k ==> items[j].id != items[k].id
    ensures forall u :: u in Planned(items, images, stem, url) ==> u.id != items[k].id
  {
    PlannedFacts(items, images, stem, url);
  }

  /** With distinct menu ids, no item is updated twice. */
  lemma {:induction false} UpdatedOnce(items: seq<MenuDoc>, images: seq<string>, stem: string -> string, url: string -> string)
    requires forall i, j :: 0 <= i < j < |items| ==> items[i].id != items[j].id
    ensures forall i, j :: 0 <= i < j < |Planned(items, images, stem, url)| ==>
              Planned(items, images, stem, url)[i].id != Planned(items, images, stem, url)[j].id
  {
    if items != [] {
      var init, last := items[..|items| - 1], items[|items| - 1];
      UpdatedOnce(init, images, stem, url);
      assert forall k :: 0 <= k < |init| ==> init[k] == items[k];
      PlannedAvoids(init, images, stem, url, last.id);
      var p := Planned(init, images, stem, url);
      var r := Planned(items, images, stem, url);
      var tail := Entry(last, images, stem, url);
      assert r == p + tail;
      forall i, j | 0 <= i < j < |r| ensures r[i].id != r[j].id {
        assert r[i] == p[i];
        if j >= |p| {
          assert r[j] == tail[j - |p|] && tail[j - |p|] in tail;
          assert p[i] in p;
        } else {
          assert r[j] == p[j];
        }
      }
    }
  }
}
