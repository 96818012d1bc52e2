/** The per-file record of a library item. */
module LibraryFiles {
  import opened Native

  /**
   * A file of a library item: its name and bytes, whether it may be loaded explicitly, the
   * path it was written to and the handle the loader returned for it.
   */
  class LibraryFile {
    var FileName: string
    var Resource: seq<Byte>
    var CanLoadExplicitly: bool
    /** The path the load pass opens; no modelled member sets it. */
    var FilePath: string
    /** IntPtr.Zero until a load pass stores the loader's answer. */
    var handle: Handle

    /** Everything about the file except its handle. */
    function Settings(): (string, seq<Byte>, bool, string)
      reads this
    {
      (FileName, Resource, CanLoadExplicitly, FilePath)
    }

    constructor (fileName: string, resource: seq<Byte>)
      ensures FileName == fileName && Resource == resource
      ensures CanLoadExplicitly
      ensures FilePath == "" && handle == 0
    {
      FileName := fileName;
      Resource := resource;
      CanLoadExplicitly := true;
      FilePath := "";
      handle := 0;
    }

    method SetFileName(value: string)
      modifies this
      ensures FileName == value
      ensures Resource == old(Resource) && CanLoadExplicitly == old(CanLoadExplicitly)
      ensures FilePath == old(FilePath) && handle == old(handle)
    {
      FileName := value;
    }

    method SetResource(value: seq<Byte>)
      modifies this
      ensures Resource == value
      ensures FileName == old(FileName) && CanLoadExplicitly == old(CanLoadExplicitly)
      ensures FilePath == old(FilePath) && handle == old(handle)
    {
      Resource := value;
    }

    method SetCanLoadExplicitly(value: bool)
      modifies this
      ensures CanLoadExplicitly == value
      ensures FileName == old(FileName) && Resource == old(Resource)
      ensures FilePath == old(FilePath) && handle == old(handle)
    {
      CanLoadExplicitly := value;
    }
  }
}
