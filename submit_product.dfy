/** The product submission form: tag parsing, the gallery of at most three images with its preview
    list, and the guards and initial record of the submission. */
module SubmitProduct {
  import opened Types
  import Seqs
  import Strings

  /** The most gallery images a product may have. */
  const MaxGallery: nat := 3

  /** Each piece trimmed (`map(t => t.trim())`). */
  function TrimAll(pieces: seq<string>): (r: seq<string>)
    ensures |r| == |pieces|
    ensures forall k :: 0 <= k < |r| ==> r[k] == Strings.Trim(pieces[k])
  {
    seq(|pieces|, k requires 0 <= k < |pieces| => Strings.Trim(pieces[k]))
  }

  /** A tag as stored: not empty, no surrounding whitespace, no comma. */
  predicate IsCleanTag(t: string) {
    t != [] && !Strings.IsWhitespace(t[0]) && !Strings.IsWhitespace(t[|t| - 1]) && ',' !in t
  }

  lemma TrimmedPiecesAreClean(pieces: seq<string>)
    requires forall k :: 0 <= k < |pieces| ==> ',' !in pieces[k]
    ensures forall t :: t in TrimAll(pieces) && t != [] ==> IsCleanTag(t)
  {
    forall t | t in TrimAll(pieces) && t != [] ensures IsCleanTag(t) {
      var k :| 0 <= k < |pieces| && TrimAll(pieces)[k] == t;
      Strings.TrimKeepsOut(pieces[k], ',');
      Strings.TrimmedHasNoOuterWhitespace(pieces[k]);
    }
  }

  /** `tags.split(',').map(t => t.trim()).filter(t => t)`. */
  function ParseTags(text: string): (tags: seq<string>)
    ensures forall k :: 0 <= k < |tags| ==> IsCleanTag(tags[k])
  {
    var trimmed := TrimAll(Strings.Split(text, ','));
    TrimmedPiecesAreClean(Strings.Split(text, ','));
    Seqs.Filter(trimmed, (t: string) => t != [])
  }

  /** The tags keep the left-to-right order of the comma-separated pieces: they are exactly the
      non-empty trimmed pieces, in order, each as often as it was typed. */
  lemma ParseTagsKeepsOrder(text: string)
    ensures Seqs.IsSubsequence(ParseTags(text), TrimAll(Strings.Split(text, ',')))
    ensures forall t :: t in ParseTags(text) <==> t in TrimAll(Strings.Split(text, ',')) && t != []
    ensures forall t :: t != [] ==>
      multiset(ParseTags(text))[t] == multiset(TrimAll(Strings.Split(text, ',')))[t]
  {
    var trimmed := TrimAll(Strings.Split(text, ','));
    var keep := (t: string) => t != [];
    Seqs.FilterIsSubsequence(trimmed, keep);
    forall t | t != [] ensures multiset(ParseTags(text))[t] == multiset(trimmed)[t] {
      Seqs.FilterCount(trimmed, keep, t);
    }
  }

  /** An empty or blank input (only whitespace and commas) yields no tags. */
  lemma BlankTextHasNoTags(text: string)
    requires forall k :: 0 <= k < |text| ==> Strings.IsWhitespace(text[k]) || text[k] == ','
    ensures ParseTags(text) == []
  {
    var pieces := Strings.Split(text, ',');
    var trimmed := TrimAll(pieces);
    forall k | 0 <= k < |trimmed| ensures trimmed[k] == [] {
      forall m | 0 <= m < |pieces[k]| ensures Strings.IsWhitespace(pieces[k][m]) {
        Strings.SplitPartsFromInput(text, ',', k, pieces[k][m]);
      }
      Strings.TrimEmptyIffBlank(pieces[k]);
    }
    Seqs.FilterNone(trimmed, (t: string) => t != []);
  }

  /** Text without a comma gives its trimmed self as the only tag, if that is not empty. */
  lemma SingleTag(text: string)
    requires ',' !in text && Strings.Trim(text) != []
    ensures ParseTags(text) == [Strings.Trim(text)]
  {
    Strings.SplitWithoutSeparator(text, ',');
    assert TrimAll([text]) == [Strings.Trim(text)];
  }

  /** `prev.filter((_, i) => i !== index)`: the element at `index` dropped, when there is one. */
  function RemoveIndex<T>(s: seq<T>, index: int): (r: seq<T>)
    ensures 0 <= index < |s| ==> r == s[..index] + s[index + 1..]
    ensures !(0 <= index < |s|) ==> r == s
    decreases |s|
  {
    if s == [] then []
    else (if index == 0 then [] else [s[0]]) + RemoveIndex(s[1..], index - 1)
  }

  /** The form's text fields. */
  datatype FormData = FormData(
    name: string, category: string, link: string, description: string, pricing: Pricing, tags: string)

  /** The row `handleSubmit` inserts into `products`. */
  datatype ProductInsert = ProductInsert(
    ownerClerkId: string, name: string, category: string, link: string, logoUrl: string,
    description: string, tags: seq<string>, pricing: Pricing, imagesUrls: seq<string>,
    likes: seq<string>, views: int)

  /** The record built from the form, the signed-in user and the uploaded image URLs. */
  function InitialRecord(owner: string, form: FormData, logoUrl: string, galleryUrls: seq<string>): (r: ProductInsert)
    ensures r.likes == [] && r.views == 0
    ensures r.ownerClerkId == owner && r.logoUrl == logoUrl && r.imagesUrls == galleryUrls
    ensures r.name == form.name && r.category == form.category && r.link == form.link
    ensures r.description == form.description && r.pricing == form.pricing
    ensures forall k :: 0 <= k < |r.tags| ==> IsCleanTag(r.tags[k])
  {
    ProductInsert(owner, form.name, form.category, form.link, logoUrl, form.description,
                  ParseTags(form.tags), form.pricing, galleryUrls, [], 0)
  }

  /** The row the store holds for an inserted record: the record plus its id and timestamp. */
  function Stored(r: ProductInsert, id: string, createdAt: string): Product {
    Product(id, r.ownerClerkId, r.name, r.category, r.link, r.logoUrl, r.description, r.tags,
            r.pricing, r.imagesUrls, r.views, r.likes, createdAt, None, None)
  }

  /** A newly submitted product has no likes and no views, so without reviews it scores 0. */
  lemma SubmittedProductScoresZero(owner: string, form: FormData, logoUrl: string, galleryUrls: seq<string>,
                                   id: string, createdAt: string)
    ensures var p := Stored(InitialRecord(owner, form, logoUrl, galleryUrls), id, createdAt);
      p.likes == [] && p.views == 0 && QualityScore(p, 0.0) == 0.0
  {
  }

  /** Why `handleSubmit` did not save, or what it saved. */
  datatype SubmitOutcome =
    | MissingUserOrLogo
    | TooManyImages
    | NoToken
    | UploadFailed
    | InsertFailed(record: ProductInsert)
    | Saved(record: ProductInsert)

  type File = string

  /** The form's state. */
  class SubmitForm {
    var loading: bool
    var logo: Option<File>
    var logoPreview: string
    var gallery: seq<File>
    var galleryPreviews: seq<string>
    var formData: FormData

    /** The gallery has a preview per image and never more than three images. */
    ghost predicate Valid()
      reads this
    {
      |gallery| == |galleryPreviews| && |gallery| <= MaxGallery
    }

    constructor ()
      ensures Valid() && !loading && logo == None && logoPreview == []
      ensures gallery == [] && galleryPreviews == []
      ensures formData == FormData([], "AI", [], [], Free, [])
    {
      loading := false;
      logo := None;
      logoPreview := [];
      gallery := [];
      galleryPreviews := [];
      formData := FormData([], "AI", [], [], Free, []);
    }

    /** `handleLogoChange`: the first chosen file becomes the logo; `preview` is its object URL. */
    method HandleLogoChange(files: seq<File>, preview: string)
      requires Valid()
      modifies this
      ensures Valid()
      ensures files == [] ==> logo == old(logo) && logoPreview == old(logoPreview)
      ensures files != [] ==> logo == Some(files[0]) && logoPreview == preview
      ensures gallery == old(gallery) && galleryPreviews == old(galleryPreviews)
      ensures formData == old(formData) && loading == old(loading)
    {
      if files != [] {
        logo := Some(files[0]);
        logoPreview := preview;
      }
    }

    /** `handleGalleryChange`: the chosen files, with one object URL each, are appended in order,
        unless that would make more than three images, in which case nothing changes. */
    method HandleGalleryChange(files: seq<File>, previews: seq<string>) returns (accepted: bool)
      requires Valid()
      requires |previews| == |files|
      modifies this
      ensures Valid()
      ensures accepted <==> |old(gallery)| + |files| <= MaxGallery
      ensures accepted ==> gallery == old(gallery) + files && galleryPreviews == old(galleryPreviews) + previews
      ensures !accepted ==> gallery == old(gallery) && galleryPreviews == old(galleryPreviews)
      ensures logo == old(logo) && logoPreview == old(logoPreview)
      ensures formData == old(formData) && loading == old(loading)
    {
      if |gallery| + |files| > MaxGallery {
        return false;
      }
      gallery := gallery + files;
      galleryPreviews := galleryPreviews + previews;
      accepted := true;
    }

    /** `removeGalleryImage`: position `index` leaves both lists; the rest keep their order. */
    method RemoveGalleryImage(index: int)
      requires Valid()
      modifies this
      ensures Valid()
      ensures gallery == RemoveIndex(old(gallery), index)
      ensures galleryPreviews == RemoveIndex(old(galleryPreviews), index)
      ensures logo == old(logo) && logoPreview == old(logoPreview)
      ensures formData == old(formData) && loading == old(loading)
    {
      gallery := RemoveIndex(gallery, index);
      galleryPreviews := RemoveIndex(galleryPreviews, index);
    }

    /** `handleSubmit`. Refused without a signed-in user and a logo, or with more than three gallery
        images; then a missing token or a failed upload stops it before anything is inserted;
        otherwise the initial record is inserted. `loading` is back to false at the end. */
    method HandleSubmit(user: Option<string>, tokenPresent: bool, uploaded: Option<(string, seq<string>)>,
                        insertOk: bool) returns (outcome: SubmitOutcome)
      modifies this`loading
      ensures user.None? || logo.None? ==> outcome == MissingUserOrLogo && loading == old(loading)
      ensures user.Some? && logo.Some? && |gallery| > MaxGallery ==>
        outcome == TooManyImages && loading == old(loading)
      ensures user.Some? && logo.Some? && |gallery| <= MaxGallery ==> !loading
      ensures user.Some? && logo.Some? && |gallery| <= MaxGallery && !tokenPresent ==> outcome == NoToken
      ensures user.Some? && logo.Some? && |gallery| <= MaxGallery && tokenPresent && uploaded.None? ==>
        outcome == UploadFailed
      ensures user.Some? && logo.Some? && |gallery| <= MaxGallery && tokenPresent && uploaded.Some? ==>
        var record := InitialRecord(user.value, formData, uploaded.value.0, uploaded.value.1);
        outcome == (if insertOk then Saved(record) else InsertFailed(record))
    {
      if user.None? || logo.None? {
        return MissingUserOrLogo;
      }
      if |gallery| > MaxGallery {
        return TooManyImages;
      }
      loading := true;
      if !tokenPresent {
        outcome := NoToken;
      } else if uploaded.None? {
        outcome := UploadFailed;
      } else {
        var record := InitialRecord(user.value, formData, uploaded.value.0, uploaded.value.1);
        outcome := if insertOk then Saved(record) else InsertFailed(record);
      }
      loading := false;
    }
  }
}
