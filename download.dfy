/** The `download` handler: id validation, then lookup (app.py:200-206). */
module DownloadEndpoint {
  import opened Types
  import opened Store
  import Ids

  /** The notebook's bytes (sent as a `FileResponse`), or an `HTTPException`. */
  datatype Response = Served(content: seq<byte>) | HttpError(status: int, detail: string)

  function Download(id: string, s: Store): (r: Response)
    ensures r.HttpError? && r.status == 400 <==> !Ids.IsValidJobId(id)
    ensures r.HttpError? && r.status == 404 <==> Ids.IsValidJobId(id) && PathFor(id) !in s
    ensures r.Served? <==> Ids.IsValidJobId(id) && PathFor(id) in s
    ensures r.Served? ==> r.content == s[PathFor(id)]
  {
    if !Ids.IsValidJobId(id) then HttpError(400, "Invalid job ID")
    else if PathFor(id) !in s then HttpError(404, "Notebook not found or expired")
    else Served(s[PathFor(id)])
  }

  /**
   * An id with a character outside the allow-list (a `/` or a `.`, so
   * any `..`), or with no letter or digit at all, is refused with 400,
   * and the answer is the same whatever the store holds: the store is
   * never consulted.
   */
  lemma UnsafeIdRejected(id: string, s: Store, t: Store)
    requires (exists c :: c in id && !Ids.InAllowList(c)) || (forall c :: c in id ==> c == '_')
    ensures Download(id, s) == HttpError(400, "Invalid job ID")
    ensures Download(id, s) == Download(id, t)
  {
    Ids.ValidJobIdIff(id);
  }

  /** The file an accepted id names stays inside the directory: no separator, no dot but the extension's. */
  lemma AcceptedPathIsLocal(id: string)
    requires Ids.IsValidJobId(id)
    ensures '/' !in PathFor(id)
    ensures forall k :: 0 <= k < |PathFor(id)| && PathFor(id)[k] == '.' ==> k == |id|
  {
    Ids.ValidJobIdIff(id);
    forall k | 0 <= k < |id| ensures PathFor(id)[k] == id[k] && id[k] != '.' && id[k] != '/' {
      assert id[k] in id;
    }
  }
}
