/** The stream providers bound to Input and Output variables:
    `createInputStreamProvider` and `createOutputStreamProvider`
    (BasicTest.java:295-369). A provider is created over a file path and
    opens nothing until the engine asks it to. */
module Providers {
  import opened Wrappers

  /** What the file system lets the process open: the paths a
      `FileInputStream` can be opened on, and those a `FileOutputStream` can. */
  datatype FileSystem = FileSystem(readable: set<string>, writable: set<string>)

  /** An open stream on a file. */
  datatype FileStream = FileInput(path: string) | FileOutput(path: string)

  /** `new FileInputStream(file)`, with `FileNotFoundException` caught and
      turned into a null stream. */
  function OpenRead(file: string, fs: FileSystem): Option<FileStream>
  {
    if file in fs.readable then Some(FileInput(file)) else None
  }

  /** `new FileOutputStream(file)`, with `FileNotFoundException` caught and
      turned into a null stream. */
  function OpenWrite(file: string, fs: FileSystem): Option<FileStream>
  {
    if file in fs.writable then Some(FileOutput(file)) else None
  }

  /** The input provider: a file and a property bag that stores nothing. */
  datatype InputProvider = InputProvider(file: string) {

    /** `openInput`: a fresh read stream on the file, or null when it cannot be opened. */
    function OpenInput(fs: FileSystem): (r: Option<FileStream>)
      ensures r.Some? <==> file in fs.readable
      ensures r.Some? ==> r.value == FileInput(file)
    {
      OpenRead(file, fs)
    }

    /** `getProperty`: every property reads as null. */
    function GetProperty(name: string): (r: Option<string>)
      ensures r == None
    {
      None
    }

    /** `setProperty`: the provider after the call, which is the same
        provider, so every property still reads as null. */
    function SetProperty(name: string, value: Option<string>): (p: InputProvider)
      ensures p == this
      ensures forall key :: p.GetProperty(key) == None
    {
      this
    }
  }

  /** The output provider: a file and a `HashMap` of properties that
      `setProperty` updates in place. A `HashMap` may store null values. */
  class OutputProvider {
    const file: string
    var properties: map<string, Option<string>>

    constructor (file: string)
      ensures this.file == file && properties == map[]
    {
      this.file := file;
      properties := map[];
    }

    /** `getProperty`: the value last stored under `name`, null if none was. */
    function GetProperty(name: string): (r: Option<string>)
      reads this
      ensures r.Some? ==> name in properties
      ensures name in properties ==> r == properties[name]
    {
      GetNullable(properties, name)
    }

    /** `setProperty`: `properties.put(name, value)`. Afterwards `name` reads
        as `value` and every other key reads as before. */
    method SetProperty(name: string, value: Option<string>)
      modifies this
      ensures properties == old(properties)[name := value]
      ensures GetProperty(name) == value
      ensures forall key :: key != name ==> GetProperty(key) == old(GetProperty(key))
    {
      properties := properties[name := value];
    }

    /** `openInput`: the output provider can also read its file. */
    function OpenInput(fs: FileSystem): (r: Option<FileStream>)
      ensures r.Some? <==> file in fs.readable
      ensures r.Some? ==> r.value == FileInput(file)
    {
      OpenRead(file, fs)
    }

    /** `openOutput`: a fresh write stream on the file, or null when it cannot be opened. */
    function OpenOutput(fs: FileSystem): (r: Option<FileStream>)
      ensures r.Some? <==> file in fs.writable
      ensures r.Some? ==> r.value == FileOutput(file)
    {
      OpenWrite(file, fs)
    }
  }
}
