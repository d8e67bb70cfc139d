/** The prize-image queue of the upload hook: file validation, add, remove,
    splice-based reorder, the list of existing images, clearing, and the upload
    run with its partition, return order and failure marking. */
module ImageQueue {
  import opened Wrappers
  import opened Text
  import opened Lists

  /** What the browser tells about a file. */
  datatype ImageFile = ImageFile(name: string, mimeType: string, size: nat)

  /** The three error texts an entry can carry. */
  datatype ImageError = UnsupportedType | TooLarge | UploadFailed

  datatype UploadedImage = UploadedImage(
    id: string,
    file: ImageFile,
    preview: string,
    url: Option<string>,
    uploading: bool,
    error: Option<ImageError>)

  const ValidTypes: seq<string> := ["image/jpeg", "image/jpg", "image/png", "image/webp"]

  /** 5 MiB. */
  const MaxSize: nat := 5 * 1024 * 1024

  /** `validateFile`: the type is checked before the size. */
  function ValidateFile(file: ImageFile): (e: Option<ImageError>)
    ensures e == Some(UnsupportedType) <==> file.mimeType !in ValidTypes
    ensures e == Some(TooLarge) <==> file.mimeType in ValidTypes && file.size > 5242880
    ensures e == None <==> file.mimeType in ValidTypes && file.size <= 5242880
  {
    if file.mimeType !in ValidTypes then Some(UnsupportedType)
    else if file.size > MaxSize then Some(TooLarge)
    else None
  }

  /** The queue entry `addImages` builds for one file; `id` and `preview` come from
      the clock, the random generator and the browser's object URLs. */
  function NewEntry(file: ImageFile, id: string, preview: string): (img: UploadedImage)
    ensures img.id == id && img.file == file && img.preview == preview
    ensures img.url == None && !img.uploading
    ensures img.error.None? <==> file.mimeType in ValidTypes && file.size <= MaxSize
  {
    UploadedImage(id, file, preview, None, false, ValidateFile(file))
  }

  /** `prev.filter(img => img.id !== id)`. */
  function WithoutId(images: seq<UploadedImage>, id: string): (r: seq<UploadedImage>)
    ensures forall img :: img in r <==> img in images && img.id != id
    ensures SubsequenceOf(r, images)
    ensures (forall i :: 0 <= i < |images| ==> images[i].id != id) ==> r == images
  {
    Filter(images, (img: UploadedImage) => img.id != id)
  }

  /** `s` with its entry at `i` taken out. */
  function RemoveAt<T>(s: seq<T>, i: nat): (r: seq<T>)
    requires i < |s|
    ensures |r| == |s| - 1
    ensures forall k :: 0 <= k < i ==> r[k] == s[k]
    ensures forall k :: i <= k < |r| ==> r[k] == s[k + 1]
  {
    s[..i] + s[i + 1..]
  }

  /** `s` with `x` put in at `i`. */
  function InsertAt<T>(s: seq<T>, i: nat, x: T): (r: seq<T>)
    requires i <= |s|
    ensures |r| == |s| + 1 && r[i] == x
    ensures forall k :: 0 <= k < i ==> r[k] == s[k]
    ensures forall k :: i < k < |r| ==> r[k] == s[k - 1]
  {
    s[..i] + [x] + s[i..]
  }

  /** The two `splice` calls of `reorderImages`. */
  function Move<T>(s: seq<T>, from: nat, to: nat): (r: seq<T>)
    requires from < |s| && to < |s|
  {
    InsertAt(RemoveAt(s, from), to, s[from])
  }

  lemma RemoveInsert<T>(s: seq<T>, i: nat, x: T)
    requires i <= |s|
    ensures RemoveAt(InsertAt(s, i, x), i) == s
  {
    var r := RemoveAt(InsertAt(s, i, x), i);
    assert |r| == |s|;
    forall k | 0 <= k < |s| ensures r[k] == s[k] {
    }
  }

  lemma RemoveAtCount<T>(s: seq<T>, i: nat)
    requires i < |s|
    ensures multiset(RemoveAt(s, i)) + multiset{s[i]} == multiset(s)
  {
    assert s == s[..i] + [s[i]] + s[i + 1..];
  }

  lemma InsertAtCount<T>(s: seq<T>, i: nat, x: T)
    requires i <= |s|
    ensures multiset(InsertAt(s, i, x)) == multiset(s) + multiset{x}
  {
    assert s == s[..i] + s[i..];
  }

  /** The moved entry lands at `to`, the length and the entries are kept, and the
      other entries keep their relative order. */
  lemma MoveFacts<T>(s: seq<T>, from: nat, to: nat)
    requires from < |s| && to < |s|
    ensures |Move(s, from, to)| == |s| && Move(s, from, to)[to] == s[from]
    ensures multiset(Move(s, from, to)) == multiset(s)
    ensures RemoveAt(Move(s, from, to), to) == RemoveAt(s, from)
  {
    RemoveAtCount(s, from);
    InsertAtCount(RemoveAt(s, from), to, s[from]);
    RemoveInsert(RemoveAt(s, from), to, s[from]);
  }

  /** Moving back undoes a move. */
  lemma MoveBack<T>(s: seq<T>, from: nat, to: nat)
    requires from < |s| && to < |s|
    ensures Move(Move(s, from, to), to, from) == s
  {
    MoveFacts(s, from, to);
    var r := Move(s, from, to);
    var rest := RemoveAt(s, from);
    assert RemoveAt(r, to) == rest;
    var back := Move(r, to, from);
    assert |back| == |s|;
    forall k | 0 <= k < |s| ensures back[k] == s[k] {
      if k < from {
        assert back[k] == rest[k];
      } else if k > from {
        assert back[k] == rest[k - 1];
      }
    }
  }

  /** The entry `setExistingImages` builds for the URL at `index`. */
  function ExistingEntry(url: string, index: nat): UploadedImage {
    UploadedImage("existing-" + Decimal(index), ImageFile("existing-image", "", 0), url, Some(url), false, None)
  }

  /** `urls.map(...)`: one uploaded, error-free entry per URL, in order, with the
      ids `existing-0`, `existing-1`, ... */
  function ExistingEntries(urls: seq<string>): (r: seq<UploadedImage>)
    ensures |r| == |urls|
    ensures forall i :: 0 <= i < |urls| ==> r[i] == ExistingEntry(urls[i], i)
  {
    if urls == [] then [] else ExistingEntries(urls[..|urls| - 1]) + [ExistingEntry(urls[|urls| - 1], |urls| - 1)]
  }

  /** The ids of the existing entries are pairwise different. */
  lemma ExistingIdsDistinct(urls: seq<string>, i: nat, j: nat)
    requires i < j < |urls|
    ensures ExistingEntries(urls)[i].id != ExistingEntries(urls)[j].id
  {
    var a, b := ExistingEntries(urls)[i].id, ExistingEntries(urls)[j].id;
    var p := "existing-";
    assert a == p + Decimal(i) && b == p + Decimal(j);
    if a == b {
      assert a[|p|..] == Decimal(i) && b[|p|..] == Decimal(j);
      DecimalInjective(i, j);
    }
  }

  /** `img.url` is truthy: present and not the empty string. */
  predicate HasUrl(img: UploadedImage) {
    img.url.Some? && img.url.value != ""
  }

  /** The entries `uploadImages` sends: no error and no usable URL yet (a
      missing URL or an empty one). */
  function Targets(images: seq<UploadedImage>): (r: seq<UploadedImage>)
    ensures forall img :: img in r <==> img in images && img.error.None? && !HasUrl(img)
    ensures SubsequenceOf(r, images)
  {
    Filter(images, (img: UploadedImage) => img.error.None? && !HasUrl(img))
  }

  /** `images.filter(img => img.url).map(img => img.url!)`: the URLs of the
      entries whose URL is present and non-empty, in queue order. */
  function ExistingUrls(images: seq<UploadedImage>): (r: seq<string>)
    ensures |r| <= |images|
    ensures forall u :: u in r <==> u != "" && exists i :: 0 <= i < |images| && images[i].url == Some(u)
  {
    if images == [] then []
    else
      var rest := ExistingUrls(images[1..]);
      assert forall i :: 0 < i < |images| ==> images[i] == images[1..][i - 1];
      match images[0].url
      case Some(u) => if u != "" then [u] + rest else rest
      case None => rest
  }

  /** After `setExistingImages`, an entry is sent again exactly when its URL is
      empty, and every non-empty URL is among the existing ones. */
  lemma ExistingTargets(urls: seq<string>, i: nat)
    requires i < |urls|
    ensures ExistingEntries(urls)[i] in Targets(ExistingEntries(urls)) <==> urls[i] == ""
    ensures urls[i] != "" ==> urls[i] in ExistingUrls(ExistingEntries(urls))
  {
    assert ExistingEntries(urls)[i].url == Some(urls[i]);
  }

  /** The `images.map(...)` that marks the entry with `id` as being sent. */
  function MarkUploading(images: seq<UploadedImage>, id: string): (r: seq<UploadedImage>)
    ensures |r| == |images|
    ensures forall i :: 0 <= i < |images| ==>
      r[i] == if images[i].id == id then images[i].(uploading := true) else images[i]
  {
    if images == [] then []
    else
      [if images[0].id == id then images[0].(uploading := true) else images[0]]
        + MarkUploading(images[1..], id)
  }

  /** The `images.map(...)` that records the public URL of the entry with `id`. */
  function SetUrl(images: seq<UploadedImage>, id: string, url: string): (r: seq<UploadedImage>)
    ensures |r| == |images|
    ensures forall i :: 0 <= i < |images| ==>
      r[i] == if images[i].id == id then images[i].(uploading := false, url := Some(url)) else images[i]
  {
    if images == [] then []
    else
      [if images[0].id == id then images[0].(uploading := false, url := Some(url)) else images[0]]
        + SetUrl(images[1..], id, url)
  }

  function Ids(images: seq<UploadedImage>): (r: set<string>)
    ensures forall id :: id in r <==> exists i :: 0 <= i < |images| && images[i].id == id
  {
    if images == [] then {}
    else
      var k := |images| - 1;
      assert forall i :: 0 <= i < k ==> images[..k][i] == images[i];
      Ids(images[..k]) + {images[k].id}
  }

  /** The catch branch: a target still marked as being sent gets the upload error. */
  function MarkFailed(images: seq<UploadedImage>, targetIds: set<string>): (r: seq<UploadedImage>)
    ensures |r| == |images|
    ensures forall i :: 0 <= i < |images| ==>
      r[i] == if images[i].id in targetIds && images[i].uploading
              then images[i].(uploading := false, error := Some(UploadFailed)) else images[i]
  {
    if images == [] then []
    else
      [if images[0].id in targetIds && images[0].uploading
       then images[0].(uploading := false, error := Some(UploadFailed)) else images[0]]
        + MarkFailed(images[1..], targetIds)
  }

  /** The queue after the first `n` targets went through in order, each given
      the URL its answer carries. */
  function Uploaded(images: seq<UploadedImage>, targets: seq<UploadedImage>, outcomes: seq<Option<string>>, n: nat): (r: seq<UploadedImage>)
    requires n <= |targets| && n <= |outcomes| && forall j :: 0 <= j < n ==> outcomes[j].Some?
    ensures |r| == |images|
  {
    if n == 0 then images
    else SetUrl(Uploaded(images, targets, outcomes, n - 1), targets[n - 1].id, outcomes[n - 1].value)
  }

  /** Each entry keeps its id, file and error; an entry none of the first `n`
      targets shares an id with is untouched. */
  lemma {:induction false} UploadedFacts(images: seq<UploadedImage>, targets: seq<UploadedImage>, outcomes: seq<Option<string>>, n: nat, i: nat)
    requires n <= |targets| && n <= |outcomes| && forall j :: 0 <= j < n ==> outcomes[j].Some?
    requires i < |images|
    ensures Uploaded(images, targets, outcomes, n)[i].id == images[i].id
    ensures Uploaded(images, targets, outcomes, n)[i].file == images[i].file
    ensures Uploaded(images, targets, outcomes, n)[i].error == images[i].error
    ensures (forall j :: 0 <= j < n ==> targets[j].id != images[i].id) ==>
      Uploaded(images, targets, outcomes, n)[i] == images[i]
  {
    if n > 0 {
      var prev := Uploaded(images, targets, outcomes, n - 1);
      UploadedFacts(images, targets, outcomes, n - 1, i);
      SetUrlAt(prev, targets[n - 1].id, outcomes[n - 1].value, i);
    }
  }

  /** An entry that shares its id with one of the first `n` targets ends with a
      URL and no longer uploading. */
  lemma {:induction false} UploadedSent(images: seq<UploadedImage>, targets: seq<UploadedImage>, outcomes: seq<Option<string>>, n: nat, i: nat, j: nat)
    requires n <= |targets| && n <= |outcomes| && forall j :: 0 <= j < n ==> outcomes[j].Some?
    requires i < |images| && j < n && targets[j].id == images[i].id
    ensures Uploaded(images, targets, outcomes, n)[i].url.Some? && !Uploaded(images, targets, outcomes, n)[i].uploading
  {
    var prev := Uploaded(images, targets, outcomes, n - 1);
    UploadedFacts(images, targets, outcomes, n - 1, i);
    SetUrlAt(prev, targets[n - 1].id, outcomes[n - 1].value, i);
    if j < n - 1 {
      UploadedSent(images, targets, outcomes, n - 1, i, j);
    }
  }

  /** One entry of `SetUrl`: the entry with the id gets the URL, others stay. */
  lemma SetUrlAt(images: seq<UploadedImage>, id: string, url: string, i: nat)
    requires i < |images|
    ensures var e := SetUrl(images, id, url)[i];
      e.id == images[i].id && e.file == images[i].file && e.error == images[i].error &&
      (images[i].id != id ==> e == images[i]) &&
      (images[i].id == id ==> e.url == Some(url) && !e.uploading)
  {
  }

  /** Marking an entry as being sent and then recording its URL is recording the
      URL. */
  lemma SetUrlAfterMark(images: seq<UploadedImage>, id: string, url: string)
    ensures SetUrl(MarkUploading(images, id), id, url) == SetUrl(images, id, url)
  {
  }

  /** How many of the first `n` uploads succeed before the first failure. */
  function Answered(outcomes: seq<Option<string>>, n: nat): (k: nat)
    ensures k <= n && k <= |outcomes|
    ensures forall j :: 0 <= j < k ==> outcomes[j].Some?
    ensures k < n ==> k == |outcomes| || outcomes[k].None?
  {
    if n == 0 then 0
    else
      var k := Answered(outcomes, n - 1);
      if k == n - 1 && k < |outcomes| && outcomes[k].Some? then n else k
  }

  /** The URLs of the first `n` answers, all of them successful. */
  function UrlsOf(outcomes: seq<Option<string>>, n: nat): (urls: seq<string>)
    requires n <= |outcomes| && forall j :: 0 <= j < n ==> outcomes[j].Some?
    ensures |urls| == n && forall j :: 0 <= j < n ==> outcomes[j] == Some(urls[j])
  {
    if n == 0 then [] else UrlsOf(outcomes, n - 1) + [outcomes[n - 1].value]
  }

  /** The first of `n` sends without a successful answer is where the answers stop. */
  lemma AnsweredStops(outcomes: seq<Option<string>>, n: nat, i: nat)
    requires i < n && i <= |outcomes| && forall j :: 0 <= j < i ==> outcomes[j].Some?
    requires i >= |outcomes| || outcomes[i].None?
    ensures Answered(outcomes, n) == i
  {
  }

  /** When the first `n` answers all succeed, all `n` count as answered. */
  lemma AnsweredAll(outcomes: seq<Option<string>>, n: nat)
    requires n <= |outcomes| && forall j :: 0 <= j < n ==> outcomes[j].Some?
    ensures Answered(outcomes, n) == n
  {
  }

  /** The hook's state. `uploadProgress` is left out. */
  class ImageUploadHook {
    var images: seq<UploadedImage>
    var uploading: bool

    constructor()
      ensures images == [] && !uploading
    {
      images := [];
      uploading := false;
    }

    /** `addImages`: one new entry per file, in order, after the existing ones;
        invalid files are kept with their error. */
    method AddImages(files: seq<ImageFile>, ids: seq<string>, previews: seq<string>)
      requires |ids| == |files| && |previews| == |files|
      modifies this
      ensures |images| == |old(images)| + |files|
      ensures images[..|old(images)|] == old(images)
      ensures forall k :: 0 <= k < |files| ==>
        images[|old(images)| + k] == NewEntry(files[k], ids[k], previews[k])
      ensures uploading == old(uploading)
    {
      var newImages: seq<UploadedImage> := [];
      var k := 0;
      while k < |files|
        invariant 0 <= k <= |files| && |newImages| == k
        invariant forall j :: 0 <= j < k ==> newImages[j] == NewEntry(files[j], ids[j], previews[j])
      {
        newImages := newImages + [NewEntry(files[k], ids[k], previews[k])];
        k := k + 1;
      }
      images := images + newImages;
    }

    /** `removeImage`. */
    method RemoveImage(id: string)
      modifies this
      ensures images == WithoutId(old(images), id) && uploading == old(uploading)
    {
      images := WithoutId(images, id);
    }

    /** `reorderImages`, for the in-range indices its one caller passes. */
    method ReorderImages(from: nat, to: nat)
      requires from < |images| && to < |images|
      modifies this
      ensures images == Move(old(images), from, to) && uploading == old(uploading)
    {
      images := Move(images, from, to);
    }

    method ClearImages()
      modifies this
      ensures images == [] && uploading == old(uploading)
    {
      images := [];
    }

    method SetExistingImages(urls: seq<string>)
      modifies this
      ensures images == ExistingEntries(urls) && uploading == old(uploading)
    {
      images := ExistingEntries(urls);
    }

    /** One pass of the loop: mark the entry as uploading, then record the URL if
        the storage answered with one. */
    method SendOne(id: string, answer: Option<string>)
      modifies this
      ensures uploading == old(uploading)
      ensures answer.None? ==> images == MarkUploading(old(images), id)
      ensures answer.Some? ==> images == SetUrl(old(images), id, answer.value)
    {
      SetUrlAfterMark(images, id, answer.GetOr([]));
      images := MarkUploading(images, id);
      if answer.Some? {
        images := SetUrl(images, id, answer.value);
      }
    }

    /** The `for` loop of `uploadImages`: send the targets in order until one
        fails, recording each URL on its entry. */
    method SendTargets(targets: seq<UploadedImage>, outcomes: seq<Option<string>>) returns (urls: seq<string>, failed: bool)
      modifies this
      ensures uploading == old(uploading)
      ensures failed <==> Answered(outcomes, |targets|) < |targets|
      ensures !failed ==>
        urls == UrlsOf(outcomes, |targets|) && images == Uploaded(old(images), targets, outcomes, |targets|)
      ensures failed ==>
        var k := Answered(outcomes, |targets|);
        images == MarkUploading(Uploaded(old(images), targets, outcomes, k), targets[k].id)
    {
      ghost var start := images;
      urls := [];
      var i := 0;
      while i < |targets|
        invariant 0 <= i <= |targets| && i <= |outcomes|
        invariant forall j :: 0 <= j < i ==> outcomes[j].Some?
        invariant urls == UrlsOf(outcomes, i)
        invariant images == Uploaded(start, targets, outcomes, i)
        invariant uploading == old(uploading)
      {
        var answer := if i < |outcomes| then outcomes[i] else None;
        SendOne(targets[i].id, answer);
        if answer.Some? {
          urls := urls + [answer.value];
          i := i + 1;
        } else {
          AnsweredStops(outcomes, |targets|, i);
          return urls, true;
        }
      }
      AnsweredAll(outcomes, |targets|);
      failed := false;
    }

    /** `uploadImages`. `outcomes[i]` is the storage's answer for the i-th target:
        its public URL, or `None` for an upload error (a missing answer is one).
        With nothing to send the existing URLs come back and nothing changes. A
        full run returns the existing URLs followed by the new ones in queue
        order and records each new URL on its entry. The first failed upload
        stops the run, marks the entry being sent and fails the call. */
    method UploadImages(outcomes: seq<Option<string>>) returns (result: Result<seq<string>, ImageError>)
      modifies this
      ensures Targets(old(images)) == [] ==>
        result == Success(ExistingUrls(old(images))) && images == old(images) && uploading == old(uploading)
      ensures Targets(old(images)) != [] ==> !uploading
      ensures result.Success? <==> Answered(outcomes, |Targets(old(images))|) == |Targets(old(images))|
      ensures result.Success? ==>
        var t := Targets(old(images));
        result.value == ExistingUrls(old(images)) + UrlsOf(outcomes, |t|) &&
        images == Uploaded(old(images), t, outcomes, |t|)
      ensures result.Failure? ==>
        var t, k := Targets(old(images)), Answered(outcomes, |Targets(old(images))|);
        result.error == UploadFailed &&
        images == MarkFailed(MarkUploading(Uploaded(old(images), t, outcomes, k), t[k].id), Ids(t))
    {
      var targets := Targets(images);
      var existing := ExistingUrls(images);
      if |targets| == 0 {
        return Success(existing);
      }
      uploading := true;
      var urls, failed := SendTargets(targets, outcomes);
      if failed {
        images := MarkFailed(images, Ids(targets));
        result := Failure(UploadFailed);
      } else {
        result := Success(existing + urls);
      }
      uploading := false;
    }
  }
}
