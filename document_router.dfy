/** `document.getUploadUrl`: registers a new file id with its filename and hands back the
    URL the client uploads to. The id comes from `nanoid()`, which is a parameter here. */
module DocumentRouter {

  import opened Common
  import opened Text
  import Trpc
  import Worker

  const ApiOrigin := "http://localhost:3001"

  const UploadPath := "/api/upload/"

  /** What the mutation returns. */
  datatype UploadTicket = UploadTicket(uploadUrl: string, fileId: string)

  /** The emulated signed upload URL. */
  function UploadUrl(fileId: string): (url: string)
    ensures StartsWith(url, ApiOrigin + UploadPath)
    ensures url[|ApiOrigin + UploadPath|..] == fileId
  {
    ApiOrigin + UploadPath + fileId
  }

  /** The alphabet of `nanoid()`; its ids are 21 such characters. */
  predicate IsNanoId(s: string) {
    |s| == 21 &&
    forall k :: 0 <= k < |s| ==>
      ('A' <= s[k] <= 'Z') || ('a' <= s[k] <= 'z') || ('0' <= s[k] <= '9') || s[k] == '_' || s[k] == '-'
  }

  /** `getUploadUrl({ filename })` behind the guard. When the guard passes, the registry
      maps the returned id to the filename (an earlier entry for that id is overwritten)
      and every other entry is unchanged. When it rejects, nothing changes. */
  method GetUploadUrl(w: Worker.WorkerState, ctx: Trpc.Context, fileId: string, filename: string)
    returns (r: Result<UploadTicket, string>)
    modifies w`fileMetadata
    ensures Trpc.ProtectedProcedure(ctx).Failure? ==>
              r == Failure(Trpc.Unauthorized) && w.fileMetadata == old(w.fileMetadata)
    ensures Trpc.ProtectedProcedure(ctx).Success? ==>
              && r == Success(UploadTicket(UploadUrl(fileId), fileId))
              && w.fileMetadata == old(w.fileMetadata)[fileId := Worker.Metadata(filename)]
  {
    var guard := Trpc.ProtectedProcedure(ctx);
    if guard.Failure? {
      return Failure(guard.error);
    }
    w.fileMetadata := w.fileMetadata[fileId := Worker.Metadata(filename)];
    var uploadUrl := UploadUrl(fileId);
    r := Success(UploadTicket(uploadUrl, fileId));
  }

  /** After the insert the worker sees the new filename for that id, and the lookup of
      any other id is what it was. */
  lemma InsertThenLookup(registry: map<string, Worker.Metadata>, fileId: string, filename: string, other: string)
    requires other != fileId
    ensures Worker.Lookup(registry[fileId := Worker.Metadata(filename)], fileId) == Some(Worker.Metadata(filename))
    ensures Worker.Lookup(registry[fileId := Worker.Metadata(filename)], other) == Worker.Lookup(registry, other)
  {
  }
}
