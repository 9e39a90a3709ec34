/** The document bundle sent as the blob: three named entries built from filename
    templates in which every `{{UUID}}` is replaced by the document id. The zip
    encoding of the bundle is not modelled; the bundle is its ordered entry list. */
module Bundle {
  import opened Python
  import Text

  /** The placeholder the templates carry for the document id. */
  const Marker := "{{UUID}}"

  /** The filename templates and the descriptor body shipped with the client. */
  datatype Templates = Templates(
    contentName: string,   // name of the content-descriptor entry
    contentBody: string,   // body of the content-descriptor entry
    pageDataName: string,  // name of the (empty) page-data entry
    documentName: string)  // name of the entry holding the uploaded file

  datatype Content = TextContent(text: string) | FileContent(bytes: seq<byte>)

  datatype Entry = Entry(name: string, content: Content)

  type Bundle = seq<Entry>

  /** `template.replace("{{UUID}}", id)`. */
  function Substitute(template: string, id: string): string {
    Text.ReplaceAll(template, Marker, id)
  }

  /** The entry list the client hands to the archive writer, in order: the descriptor,
      an empty page-data entry and the file, each named by its template with the id in
      place of every `{{UUID}}`; the descriptor body is shipped as it is. */
  function MakeBundle(t: Templates, id: string, file: seq<byte>): (b: Bundle)
    ensures |b| == 3
    ensures b[0].name == Substitute(t.contentName, id) && b[0].content == TextContent(t.contentBody)
    ensures b[1].name == Substitute(t.pageDataName, id) && b[1].content == TextContent("")
    ensures b[2].name == Substitute(t.documentName, id) && b[2].content == FileContent(file)
  {
    [
      Entry(Substitute(t.contentName, id), TextContent(t.contentBody)),
      Entry(Substitute(t.pageDataName, id), TextContent("")),
      Entry(Substitute(t.documentName, id), FileContent(file))
    ]
  }

  /** The content of the entry with the given name, as an archive reader finds it. When
      a name is duplicated this takes the first entry (Python's `zipfile` would take the
      last); the round trip below only reads names that are pairwise distinct. */
  function Find(b: Bundle, name: string): (r: Option<Content>)
    ensures r.Some? <==> exists i :: 0 <= i < |b| && b[i].name == name
    ensures r.Some? ==> exists i :: 0 <= i < |b| && b[i] == Entry(name, r.value)
  {
    if b == [] then None
    else if b[0].name == name then Some(b[0].content)
    else
      var r := Find(b[1..], name);
      assert forall i :: 1 <= i < |b| ==> b[i] == b[1..][i - 1];
      r
  }

  /** Reading the bundle back: when the three substituted names are pairwise distinct,
      each is found with its own content, and the document entry holds the file's bytes
      unchanged. */
  lemma {:induction false} BundleLayout(t: Templates, id: string, file: seq<byte>)
    requires Substitute(t.contentName, id) != Substitute(t.pageDataName, id)
    requires Substitute(t.contentName, id) != Substitute(t.documentName, id)
    requires Substitute(t.pageDataName, id) != Substitute(t.documentName, id)
    ensures var b := MakeBundle(t, id, file);
      && Find(b, Substitute(t.contentName, id)) == Some(TextContent(t.contentBody))
      && Find(b, Substitute(t.pageDataName, id)) == Some(TextContent(""))
      && Find(b, Substitute(t.documentName, id)) == Some(FileContent(file))
  {
    var b := MakeBundle(t, id, file);
    assert b[1..][1..] == [b[2]];
    assert Find(b[1..][1..], b[2].name) == Some(FileContent(file));
    assert Find(b[1..], b[1].name) == Some(TextContent(""));
  }

  /** In a template `pre{{UUID}}post` where `pre` holds no earlier placeholder, the id
      lands where the first placeholder stood and the rest is substituted in turn. */
  lemma SubstitutePlacesId(pre: string, post: string, id: string)
    requires Text.NoEarlier(pre, Marker, post)
    ensures Substitute(pre + Marker + post, id) == pre + id + Substitute(post, id)
  {
    Text.ReplaceAtLeftmost(pre, Marker, post, id);
  }
}
