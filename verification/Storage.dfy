/** Downloading from the object store through a staging file. */
module Storage {
  import opened Types

  /** How a download ends: the file is there, it is not in the store, or the transfer broke off. */
  datatype Result = Downloaded | Missing | Failed

  class S3Storage {
    const objects: map<nat, Bytes>
    var files: map<string, Bytes>

    constructor (objects: map<nat, Bytes>, files: map<string, Bytes>)
      ensures this.objects == objects && this.files == files
    {
      this.objects, this.files := objects, files;
    }

    /** Any part of the object may have arrived when the transfer stops. */
    method Transfer(key: nat, path: string) returns (result: Result)
      modifies this
      ensures result.Downloaded? ==> key in objects && files == old(files)[path := objects[key]]
      ensures !result.Downloaded? ==> files == old(files) || (path in files && files == old(files)[path := files[path]])
      ensures result.Missing? <==> key !in objects
    {
      if key !in objects { return Missing; }
      var bytes := objects[key];
      var started: bool, arrived: nat := *, *;
      if started {
        files := files[path := if arrived < |bytes| then bytes[..arrived] else bytes];
      }
      result := if started && arrived >= |bytes| then Downloaded else Result.Failed;
    }

    /** The file appears whole or not at all: whatever fails, the old file stays as it was, and no other file
        changes except a staging file that could not be removed. */
    method DownloadFile(key: nat, path: string, staging: string) returns (result: Result)
      requires staging != path && staging !in files
      modifies this
      ensures result.Missing? <==> key !in objects
      ensures result.Downloaded? ==> files == old(files)[path := objects[key]]
      ensures !result.Downloaded? ==> files - {staging} == old(files)
    {
      result := Transfer(key, staging);
      if result.Downloaded? {
        files := (files - {staging})[path := files[staging]];
        assert files == old(files)[path := objects[key]];
      } else {
        var removed: bool := *;
        if removed { files := files - {staging}; }
        assert files - {staging} == old(files);
      }
    }
  }
}
