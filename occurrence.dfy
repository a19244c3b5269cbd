/** The occurrence report form (src/pages/Occurrence.tsx): the driver picks
    one of a fixed catalogue of occurrence types, describes what happened,
    optionally attaches photos, and submits; submission is refused unless a
    type is picked and the description is not blank. */
module Occurrences {
  import opened Text

  datatype OccurrenceType = OccurrenceType(id: string, caption: string)

  /** `occurrenceTypes`: the eight kinds the form offers (`caption` is the
      source's `label`, a word Dafny reserves). */
  const OCCURRENCE_TYPES: seq<OccurrenceType> := [
    OccurrenceType("pneu", "Pneu Furado"),
    OccurrenceType("combustivel", "Falta de Combustível"),
    OccurrenceType("fiscal", "Parada Fiscal"),
    OccurrenceType("atraso", "Atraso na Rota"),
    OccurrenceType("acidente", "Acidente"),
    OccurrenceType("mecanico", "Problema Mecânico"),
    OccurrenceType("clima", "Condições Climáticas"),
    OccurrenceType("outros", "Outros")
  ]

  predicate IsCatalogueId(t: string) {
    exists k :: 0 <= k < |OCCURRENCE_TYPES| && OCCURRENCE_TYPES[k].id == t
  }

  /** The catalogue has eight entries with distinct, non-empty ids, so a
      picked type is never the falsy "". */
  lemma CatalogueWellFormed()
    ensures |OCCURRENCE_TYPES| == 8
    ensures forall i, j :: 0 <= i < j < |OCCURRENCE_TYPES| ==> OCCURRENCE_TYPES[i].id != OCCURRENCE_TYPES[j].id
    ensures forall t :: IsCatalogueId(t) ==> t != ""
  {
  }

  /** The negation of `!selectedType || !description.trim()`: a type is picked
      and the description has a non-whitespace character. The photos play no
      part: attachments are optional. */
  predicate CanSubmit(selectedType: string, description: string)
    ensures CanSubmit(selectedType, description) <==> selectedType != "" && !AllWhitespace(description)
  {
    selectedType != "" && !IsBlank(description)
  }

  /** `image_${n}.jpg`: the prefix "image_", then decimal digits with no
      leading zero that read as `n`, then the extension ".jpg". */
  function ImageName(n: nat): (r: string)
    ensures |r| >= 11 && r[..6] == "image_" && r[|r| - 4..] == ".jpg"
    ensures forall i :: 6 <= i < |r| - 4 ==> '0' <= r[i] <= '9'
    ensures DigitsValue(r[6..|r| - 4]) == n
    ensures r[6] == '0' ==> n == 0 && |r| == 11
  {
    var d := NatToString(n);
    NatToStringRoundTrip(n);
    var r := "image_" + d + ".jpg";
    assert r[..6] == "image_" && r[|r| - 4..] == ".jpg" && r[6..|r| - 4] == d;
    assert forall i :: 6 <= i < |r| - 4 ==> r[i] == d[i - 6];
    r
  }

  /** Different numbers give different file names. */
  lemma ImageNameInjective(a: nat, b: nat)
    requires ImageName(a) == ImageName(b)
    ensures a == b
  {
  }

  /** The photo list after `n` presses of "Tirar Foto" on a fresh form:
      `image_1.jpg`, ..., `image_n.jpg`. */
  function ImagesAfter(n: nat): (r: seq<string>)
    ensures |r| == n
    ensures forall i :: 0 <= i < n ==> r[i] == ImageName(i + 1)
  {
    if n == 0 then [] else ImagesAfter(n - 1) + [ImageName(n)]
  }

  /** No two photos of the list share a name. */
  lemma ImagesDistinct(n: nat, i: nat, j: nat)
    requires i < j < n
    ensures ImagesAfter(n)[i] != ImagesAfter(n)[j]
  {
  }

  /** What `handleSubmit` does when pressed: refuse with the "required
      fields" toast, or start sending. */
  datatype SubmitOutcome = MissingFields | Sending

  /** The form component: its `useState` cells as fields. */
  class OccurrenceForm {
    var selectedType: string
    var description: string
    var images: seq<string>
    var isSubmitting: bool

    /** The picked type is "" or a catalogue id, and the photo list is the one
        that the "add photo" button builds. */
    ghost predicate Valid()
      reads this
    {
      (selectedType == "" || IsCatalogueId(selectedType)) && images == ImagesAfter(|images|)
    }

    /** The state of a freshly shown form. */
    constructor ()
      ensures Valid()
      ensures selectedType == "" && description == "" && images == [] && !isSubmitting
    {
      selectedType := "";
      description := "";
      images := [];
      isSubmitting := false;
    }

    /** Pressing the type button for catalogue entry `k`. */
    method SelectType(k: nat)
      requires Valid() && k < |OCCURRENCE_TYPES|
      modifies this
      ensures Valid()
      ensures selectedType == OCCURRENCE_TYPES[k].id
      ensures description == old(description) && images == old(images)
      ensures isSubmitting == old(isSubmitting)
    {
      selectedType := OCCURRENCE_TYPES[k].id;
    }

    /** The description field's `onChange`. */
    method SetDescription(text: string)
      requires Valid()
      modifies this
      ensures Valid()
      ensures description == text
      ensures selectedType == old(selectedType) && images == old(images)
      ensures isSubmitting == old(isSubmitting)
    {
      description := text;
    }

    /** `handleImageAdd`: append `image_{k+1}.jpg`, k being the number of
        photos so far; the earlier photos keep their names and order. */
    method AddImage()
      requires Valid()
      modifies this
      ensures Valid()
      ensures images == old(images) + [ImageName(|old(images)| + 1)]
      ensures images == ImagesAfter(|old(images)| + 1)
      ensures selectedType == old(selectedType) && description == old(description)
      ensures isSubmitting == old(isSubmitting)
    {
      var k := |images|;
      assert ImagesAfter(k + 1) == ImagesAfter(k) + [ImageName(k + 1)];
      images := images + [ImageName(k + 1)];
    }

    /** The button's `disabled` condition, negated: the button is enabled
        exactly when the form is not sending and the validation
        `handleSubmit` runs would pass. */
    predicate SubmitEnabled()
      reads this
      ensures SubmitEnabled() <==> !isSubmitting && CanSubmit(selectedType, description)
    {
      !(isSubmitting || selectedType == "" || IsBlank(description))
    }

    /** The first half of `handleSubmit`: validate, and on success raise the
        submitting flag; on failure leave every field as it was. */
    method Submit() returns (outcome: SubmitOutcome)
      requires Valid()
      modifies this
      ensures Valid()
      ensures outcome == Sending <==> CanSubmit(selectedType, description)
      ensures isSubmitting == (outcome == Sending || old(isSubmitting))
      ensures old(SubmitEnabled()) ==> outcome == Sending
      ensures selectedType == old(selectedType) && description == old(description)
      ensures images == old(images)
    {
      if selectedType == "" || IsBlank(description) {
        outcome := MissingFields;
        return;
      }
      isSubmitting := true;
      outcome := Sending;
    }

    /** The deferred half of `handleSubmit`, run when the timer fires: lower
        the submitting flag. */
    method CompleteSubmit()
      requires Valid()
      modifies this
      ensures Valid()
      ensures !isSubmitting
      ensures selectedType == old(selectedType) && description == old(description)
      ensures images == old(images)
    {
      isSubmitting := false;
    }
  }
}
