/** Font family and size variants of the document labels. Sizes are recomputed from
    the point sizes recorded when the page was built, so choosing a size variant is
    idempotent; a family change keeps each label's current point size. */
module Fonts {
  import opened Basics

  /** Font weights the labels use; a custom face reports no weight trait, read as regular. */
  datatype Weight = Regular | Medium | Semibold | Bold

  /** The system font at a weight, or one of the two bundled faces. */
  datatype Face = System(weight: Weight) | SongMyung | Urbanist

  datatype Label = Label(face: Face, size: real)

  /** Whether `UIFont(name:size:)` finds each bundled face (it returns nil when the font is not registered). */
  datatype FontAvailability = FontAvailability(songMyung: bool, urbanist: bool)

  const ClassicIndex: int := 1
  const RoundIndex: int := 2
  const LargeSizeIndex: int := 1

  /** The weight a label keeps when it is switched to the system font. */
  function SystemWeight(f: Face): Weight
  {
    if f.System? then f.weight else Regular
  }

  /** The face `applyFontToInvoiceLabelsWithSize` gives a label: the selected bundled face
      when it loads, otherwise the system font at the label's weight. */
  function SizedFace(current: Face, fontIndex: int, fonts: FontAvailability): Face
  {
    if fontIndex == ClassicIndex && fonts.songMyung then SongMyung
    else if fontIndex == RoundIndex && fonts.urbanist then Urbanist
    else System(SystemWeight(current))
  }

  /** The point size a label gets for a size variant: its recorded original size (or,
      with none recorded, its current size) plus one for the large variant. */
  function TargetSize(i: nat, current: real, originals: seq<real>, sizeIndex: int): real
  {
    var base := if i < |originals| then originals[i] else current;
    if sizeIndex == LargeSizeIndex then base + 1.0 else base
  }

  /** `applyFontToInvoiceLabelsWithSize`. */
  function ApplySize(labels: seq<Label>, originals: seq<real>, fontIndex: int, sizeIndex: int, fonts: FontAvailability): (r: seq<Label>)
    ensures |r| == |labels|
    ensures forall i :: 0 <= i < |labels| && i < |originals| ==>
      r[i].size == (if sizeIndex == LargeSizeIndex then originals[i] + 1.0 else originals[i])
    ensures forall i :: |originals| <= i < |labels| ==>
      r[i].size == (if sizeIndex == LargeSizeIndex then labels[i].size + 1.0 else labels[i].size)
    ensures forall i :: 0 <= i < |labels| ==> r[i].face == SizedFace(labels[i].face, fontIndex, fonts)
  {
    seq(|labels|, i requires 0 <= i < |labels| =>
      Label(SizedFace(labels[i].face, fontIndex, fonts), TargetSize(i, labels[i].size, originals, sizeIndex)))
  }

  /** With every label's original size recorded, applying a size variant twice is the
      same as applying it once. */
  lemma ApplySizeIdempotent(labels: seq<Label>, originals: seq<real>, fontIndex: int, sizeIndex: int, fonts: FontAvailability)
    requires |labels| <= |originals|
    ensures ApplySize(ApplySize(labels, originals, fontIndex, sizeIndex, fonts), originals, fontIndex, sizeIndex, fonts)
         == ApplySize(labels, originals, fontIndex, sizeIndex, fonts)
  {
    var once := ApplySize(labels, originals, fontIndex, sizeIndex, fonts);
    var twice := ApplySize(once, originals, fontIndex, sizeIndex, fonts);
    forall i | 0 <= i < |labels|
      ensures twice[i] == once[i]
    {
      assert SizedFace(once[i].face, fontIndex, fonts) == once[i].face;
    }
  }

  /** Re-selecting the standard size restores every recorded label to its original
      size, whatever sizes the labels currently have. */
  lemma StandardSizeRestoresOriginals(labels: seq<Label>, originals: seq<real>, fontIndex: int, fonts: FontAvailability)
    requires |labels| == |originals|
    ensures forall i :: 0 <= i < |labels| ==>
      ApplySize(labels, originals, fontIndex, 0, fonts)[i].size == originals[i]
  {
  }

  /** `n` applications of a size variant to labels with nothing recorded. */
  function ApplySizeTimes(labels: seq<Label>, fontIndex: int, sizeIndex: int, fonts: FontAvailability, n: nat): seq<Label>
  {
    if n == 0 then labels
    else ApplySize(ApplySizeTimes(labels, fontIndex, sizeIndex, fonts, n - 1), [], fontIndex, sizeIndex, fonts)
  }

  /** Without recorded originals the large variant grows from the current size, so
      every repetition adds another point. */
  lemma {:induction false} UnrecordedLargeKeepsGrowing(labels: seq<Label>, fontIndex: int, fonts: FontAvailability, n: nat)
    ensures |ApplySizeTimes(labels, fontIndex, LargeSizeIndex, fonts, n)| == |labels|
    ensures forall i :: 0 <= i < |labels| ==>
      ApplySizeTimes(labels, fontIndex, LargeSizeIndex, fonts, n)[i].size == labels[i].size + n as real
  {
    if n > 0 {
      UnrecordedLargeKeepsGrowing(labels, fontIndex, fonts, n - 1);
    }
  }

  /** The face `applyFontToAllLabels` gives a label; a bundled face that does not load
      leaves the label as it was. */
  function FamilyFace(current: Face, fontIndex: int, fonts: FontAvailability): Face
  {
    if fontIndex == ClassicIndex then (if fonts.songMyung then SongMyung else current)
    else if fontIndex == RoundIndex then (if fonts.urbanist then Urbanist else current)
    else System(SystemWeight(current))
  }

  /** `applyFontToAllLabels`: a family change keeps every label's point size. */
  function ApplyFamily(labels: seq<Label>, fontIndex: int, fonts: FontAvailability): (r: seq<Label>)
    ensures |r| == |labels|
    ensures forall i :: 0 <= i < |labels| ==> r[i].size == labels[i].size
    ensures forall i :: 0 <= i < |labels| && fontIndex == ClassicIndex && fonts.songMyung ==> r[i].face == SongMyung
    ensures forall i :: 0 <= i < |labels| && fontIndex == RoundIndex && fonts.urbanist ==> r[i].face == Urbanist
    ensures forall i :: 0 <= i < |labels| && fontIndex != ClassicIndex && fontIndex != RoundIndex ==>
      r[i].face == System(if labels[i].face.System? then labels[i].face.weight else Regular)
    ensures forall i :: 0 <= i < |labels| && fontIndex == ClassicIndex && !fonts.songMyung ==> r[i] == labels[i]
    ensures forall i :: 0 <= i < |labels| && fontIndex == RoundIndex && !fonts.urbanist ==> r[i] == labels[i]
  {
    seq(|labels|, i requires 0 <= i < |labels| => Label(FamilyFace(labels[i].face, fontIndex, fonts), labels[i].size))
  }

  /** `applyFontToInvoiceLabel`: the document-type title keeps its size; the system
      choice makes it bold; a bundled face that does not load leaves it as it was.
      Without a title label nothing happens. */
  function ApplyFamilyToTitle(title: Option<Label>, fontIndex: int, fonts: FontAvailability): (r: Option<Label>)
    ensures r.Some? <==> title.Some?
    ensures r.Some? ==> r.value.size == title.value.size
    ensures r.Some? && fontIndex == ClassicIndex && fonts.songMyung ==> r.value.face == SongMyung
    ensures r.Some? && fontIndex == RoundIndex && fonts.urbanist ==> r.value.face == Urbanist
    ensures r.Some? && fontIndex != ClassicIndex && fontIndex != RoundIndex ==> r.value.face == System(Bold)
    ensures (fontIndex == ClassicIndex && !fonts.songMyung) || (fontIndex == RoundIndex && !fonts.urbanist) ==> r == title
  {
    match title
    case None => None
    case Some(l) =>
      if fontIndex == ClassicIndex then Some(if fonts.songMyung then Label(SongMyung, l.size) else l)
      else if fontIndex == RoundIndex then Some(if fonts.urbanist then Label(Urbanist, l.size) else l)
      else Some(Label(System(Bold), l.size))
  }
}
