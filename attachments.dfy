/** The attachment slots of the reimbursement form and the check made on a chosen file. */
module Attachments {
  import opened Wrappers
  import opened IdLists

  /** What the form reads of a browser `File`. */
  datatype FileInfo = FileInfo(name: string, size: nat, mimeType: string)

  /** The message a slot shows; `NoError` is the empty string, the others the translated
      size and type messages. */
  datatype FileError = NoError | SizeError | TypeError

  datatype Attachment = Attachment(id: string, file: Option<FileInfo>, error: FileError)

  /** The size limit: 10 MB. */
  const MaxFileSize: nat := 10 * 1024 * 1024

  const PdfType: string := "application/pdf"

  function AttachmentId(a: Attachment): string {
    a.id
  }

  /** A slot with no file and no message. */
  function EmptySlot(id: string): Attachment {
    Attachment(id, None, NoError)
  }

  function InitialSlots(): seq<Attachment> {
    [EmptySlot("1")]
  }

  /** `addAttachment`: one empty slot after the existing ones. */
  function AddSlot(atts: seq<Attachment>, newId: string): (r: seq<Attachment>)
    ensures |r| == |atts| + 1 && r[..|atts|] == atts
    ensures r[|atts|].id == newId && r[|atts|].file.None? && r[|atts|].error == NoError
  {
    atts + [EmptySlot(newId)]
  }

  /** `removeAttachment`. */
  function RemoveSlot(atts: seq<Attachment>, id: string): seq<Attachment> {
    RemoveKeepingOne(atts, AttachmentId, id)
  }

  /** A file the form accepts: at most 10 MB, and a PDF. */
  predicate Acceptable(f: FileInfo) {
    f.size <= MaxFileSize && f.mimeType == PdfType
  }

  /**
   * The slot `handleFileChange` builds for the matching slot: the size is checked first, then the
   * type; a rejected file is dropped, an accepted file (or no file) clears the message.
   */
  function ChooseFile(a: Attachment, file: Option<FileInfo>): (r: Attachment)
    ensures r.id == a.id
    ensures r.error == SizeError <==> file.Some? && file.value.size > MaxFileSize
    ensures r.error == TypeError <==> file.Some? && file.value.size <= MaxFileSize && file.value.mimeType != PdfType
    ensures r.error == NoError <==> file.None? || Acceptable(file.value)
    ensures r.file == if r.error == NoError then file else None
  {
    if file.Some? && file.value.size > MaxFileSize then a.(file := None, error := SizeError)
    else if file.Some? && file.value.mimeType != PdfType then a.(file := None, error := TypeError)
    else a.(file := file, error := NoError)
  }

  /** `handleFileChange(id, file)` over the whole list. */
  function HandleFileChange(atts: seq<Attachment>, id: string, file: Option<FileInfo>): seq<Attachment> {
    ReplaceWhere(atts, AttachmentId, id, (a: Attachment) => ChooseFile(a, file))
  }

  /** What every slot satisfies once the checks have run: a message means no file, and a file
      that is kept is an acceptable one. */
  predicate WellFormed(a: Attachment) {
    (a.error != NoError ==> a.file.None?) && (a.file.Some? ==> Acceptable(a.file.value))
  }

  predicate AllWellFormed(atts: seq<Attachment>) {
    forall i :: 0 <= i < |atts| ==> WellFormed(atts[i])
  }

  /** Only the slots with the id change, to `ChooseFile`; ids, order and well-formedness are kept. */
  lemma HandleFileChangeSpec(atts: seq<Attachment>, id: string, file: Option<FileInfo>)
    ensures var r := HandleFileChange(atts, id, file);
      && |r| == |atts|
      && (forall i :: 0 <= i < |atts| && atts[i].id != id ==> r[i] == atts[i])
      && (forall i :: 0 <= i < |atts| && atts[i].id == id ==> r[i] == ChooseFile(atts[i], file))
      && (forall i :: 0 <= i < |atts| ==> r[i].id == atts[i].id)
      && (AllWellFormed(atts) ==> AllWellFormed(r))
    ensures DistinctKeys(atts, AttachmentId) ==> DistinctKeys(HandleFileChange(atts, id, file), AttachmentId)
  {
    ReplaceWhereKeys(atts, AttachmentId, id, (a: Attachment) => ChooseFile(a, file));
  }

  /** Adding or removing slots keeps every slot well formed. */
  lemma SlotsStayWellFormed(atts: seq<Attachment>, newId: string, id: string)
    requires AllWellFormed(atts)
    ensures AllWellFormed(AddSlot(atts, newId))
    ensures AllWellFormed(RemoveSlot(atts, id))
  {
    var r := RemoveSlot(atts, id);
    forall i | 0 <= i < |r| ensures WellFormed(r[i]) {
      assert r[i] in atts;
    }
  }

  /** With distinct ids and a fresh id, adding a slot keeps ids distinct. */
  lemma AddSlotKeepsIdsDistinct(atts: seq<Attachment>, newId: string)
    requires DistinctKeys(atts, AttachmentId)
    requires forall i :: 0 <= i < |atts| ==> atts[i].id != newId
    ensures DistinctKeys(AddSlot(atts, newId), AttachmentId)
  {
    DistinctKeysAppend(atts, AttachmentId, EmptySlot(newId));
  }
}
