/** The media step of the casting wizard: audition instructions, notes and the list of
    required documents with its pending entry. */
module StepMedia {
  import opened Seqs
  import opened Text
  import opened ListEditors

  datatype MediaData = MediaData(auditionInstructions: string, requiredDocuments: seq<string>, additionalNotes: string)

  /** The component's state: the parent's media record and the pending document entry. */
  class StepMediaState {
    var data: MediaData
    var newDoc: string

    constructor (initial: MediaData)
      ensures data == initial && newDoc == ""
    {
      data := initial;
      newDoc := "";
    }

    method SetNewDoc(value: string)
      modifies this
      ensures newDoc == value && data == old(data)
    {
      newDoc := value;
    }

    method SetAuditionInstructions(value: string)
      modifies this
      ensures data == old(data).(auditionInstructions := value) && newDoc == old(newDoc)
    {
      data := data.(auditionInstructions := value);
    }

    method SetAdditionalNotes(value: string)
      modifies this
      ensures data == old(data).(additionalNotes := value) && newDoc == old(newDoc)
    {
      data := data.(additionalNotes := value);
    }

    /** `addDocument`: the trimmed entry is appended when non-blank and new, and only then is
        the entry cleared. */
    method AddDocument()
      modifies this
      ensures data == old(data).(requiredDocuments := AddTrimmed(old(data.requiredDocuments), old(newDoc)))
      ensures newDoc == if Accepts(old(data.requiredDocuments), old(newDoc)) then "" else old(newDoc)
      ensures old(NoDuplicates(data.requiredDocuments)) ==> NoDuplicates(data.requiredDocuments)
    {
      if NoDuplicates(data.requiredDocuments) {
        AddTrimmedNoDuplicates(data.requiredDocuments, newDoc);
      }
      if Accepts(data.requiredDocuments, newDoc) {
        data := data.(requiredDocuments := data.requiredDocuments + [Trim(newDoc)]);
        newDoc := "";
      }
    }

    /** `removeDocument`: every copy of the document goes, the rest keep their order. */
    method RemoveDocument(doc: string)
      modifies this
      ensures data == old(data).(requiredDocuments := RemoveAll(old(data.requiredDocuments), doc))
      ensures doc !in data.requiredDocuments
      ensures newDoc == old(newDoc)
    {
      RemoveAllSpec(data.requiredDocuments, doc);
      data := data.(requiredDocuments := RemoveAll(data.requiredDocuments, doc));
    }
  }
}
