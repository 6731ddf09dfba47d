/**
 * The browser side's view of the API: every mutation a page issues through
 * `api.create(path, data)`, `api.update(path, id, data)` or
 * `api.remove(path, id)`, recorded in order. Files the user picks are
 * described by name, size and MIME type; the upload host is a function from
 * a picked file to the `secure_url` it returns.
 */
module Client {
  import opened Documents

  datatype Call =
    | Create(path: string, data: Doc)
    | Update(path: string, id: string, data: Doc)
    | Remove(path: string, id: string)

  /** A file chosen in a file input. */
  datatype LocalFile = LocalFile(name: string, size: int, mime: string)

  /** The mutations sent so far. */
  class ApiClient {
    var sent: seq<Call>

    constructor ()
      ensures sent == []
    {
      sent := [];
    }

    method Send(c: Call)
      modifies this
      ensures sent == old(sent) + [c]
    {
      sent := sent + [c];
    }
  }

  /** The `{url, name, size}` object a page stores for an uploaded file. */
  function FileObject(url: string, file: LocalFile): (r: Value)
    ensures r.Obj? && r.fields.Keys == {"url", "name", "size"}
    ensures r.fields["url"] == Str(url) && r.fields["name"] == Str(file.name) && r.fields["size"] == Num(file.size)
  {
    Obj(map["url" := Str(url), "name" := Str(file.name), "size" := Num(file.size)])
  }
}
