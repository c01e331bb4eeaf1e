/** Macro documents as the YAML layer hands them over, and the files they
    live in. Reading and writing YAML is taken to be faithful: a file holds
    the parsed document that was written to it. */
module MacroFiles {
  import opened Effects

  /** One entry of `events`: each field as found, or None when the key is
      missing or its value does not convert (float() of a non-number). */
  datatype RawEvent = RawEvent(time: Option<real>, key: Option<string>, kind: Option<string>)

  /** The value under `events`: missing, a list, or anything else. */
  datatype EventsField = Absent | EventList(items: seq<RawEvent>) | NotAList

  datatype Meta = Meta(description: string, createdAt: string)

  /** A parsed file: a mapping with optional `meta` and `events`, or some
      other YAML value (a scalar, a list, an empty file). */
  datatype Document = Mapping(meta: Option<Meta>, events: EventsField) | NotMapping

  /** The file system as far as macros are concerned. */
  class Files {
    var contents: map<string, Document>

    constructor (contents: map<string, Document>)
      ensures this.contents == contents
    {
      this.contents := contents;
    }

    /** write_yaml_file with replace=True: the file ends up holding exactly
        `doc`, whatever was there before. */
    method Write(path: string, doc: Document)
      modifies this
      ensures contents == old(contents)[path := doc]
    {
      contents := contents[path := doc];
    }
  }
}
