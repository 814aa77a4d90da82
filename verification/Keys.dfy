/**
 Identifiers and storage keys.

 Every id is a UUID in its 36-character text form.  Uploads live under
 `<userId>/<uuid><ext>`, outputs under `processed/<userId>/<jobId>/<name>`; the
 extension and the file name are arbitrary strings chosen by the client.
 */
module Keys {
  type Id = string

  const UUID_LENGTH := 36

  predicate IsUuid(id: Id) {
    |id| == UUID_LENGTH && '/' !in id
  }

  function UploadKey(userId: Id, uuid: Id, ext: string): string {
    userId + "/" + uuid + ext
  }

  function OutputKey(userId: Id, jobId: Id, name: string): string {
    "processed/" + userId + "/" + jobId + "/" + name
  }

  /** The keys that start with a slash-free id, a slash and room for a second id. */
  predicate InUploadNamespace(key: string) {
    |key| >= 73 && '/' !in key[..36] && key[36] == '/'
  }

  /** The random part of an upload key. */
  function KeyUuid(key: string): Id
    requires InUploadNamespace(key)
  {
    key[37..73]
  }

  lemma UploadKeyParts(userId: Id, uuid: Id, ext: string)
    requires IsUuid(userId) && IsUuid(uuid)
    ensures var key := UploadKey(userId, uuid, ext);
            InUploadNamespace(key) && key[..36] == userId && KeyUuid(key) == uuid && key[73..] == ext
  {
    var key := UploadKey(userId, uuid, ext);
    assert key[..36] == userId;
    assert key[37..73] == uuid;
    assert key[73..] == ext;
  }

  /** Two upload keys are equal only when owner, random id and extension all are. */
  lemma UploadKeysNeverCollide(userId: Id, uuid: Id, ext: string, userId': Id, uuid': Id, ext': string)
    requires IsUuid(userId) && IsUuid(uuid) && IsUuid(userId') && IsUuid(uuid')
    ensures UploadKey(userId, uuid, ext) == UploadKey(userId', uuid', ext')
            <==> userId == userId' && uuid == uuid' && ext == ext'
  {
    UploadKeyParts(userId, uuid, ext);
    UploadKeyParts(userId', uuid', ext');
  }

  /** Two output keys are equal only when owner, job and file name all are. */
  lemma OutputKeysNeverCollide(userId: Id, jobId: Id, name: string, userId': Id, jobId': Id, name': string)
    requires IsUuid(userId) && IsUuid(jobId) && IsUuid(userId') && IsUuid(jobId')
    ensures OutputKey(userId, jobId, name) == OutputKey(userId', jobId', name')
            <==> userId == userId' && jobId == jobId' && name == name'
  {
    var key, key' := OutputKey(userId, jobId, name), OutputKey(userId', jobId', name');
    assert key[10..46] == userId && key[47..83] == jobId && key[84..] == name;
    assert key'[10..46] == userId' && key'[47..83] == jobId' && key'[84..] == name';
  }

  /** No output key, whatever the job and the file name, is an upload key. */
  lemma OutputKeysAreNotUploadKeys(userId: Id, jobId: Id, name: string)
    ensures !InUploadNamespace(OutputKey(userId, jobId, name))
  {
    var key := OutputKey(userId, jobId, name);
    if |key| >= 73 {
      assert key[..36][9] == '/';
    }
  }
}
