/**
 * The parts of the Node.js runtime and its libraries that the bot calls but
 * that are not modelled: the file system, the `mime-types` tables and the JSON
 * codec. Each is a field of `Host`, so every statement about the bot holds for
 * every behaviour of these collaborators.
 */
module Runtime {
  import opened Wrappers
  import opened Json

  datatype Host = Host(
    /** `readFile(path)` followed by `toString('base64')`: the base64 text of
        each readable file. */
    files: map<string, string>,
    /** `mime.lookup(path)`; `None` stands for its `false` result. */
    mimeLookup: string -> Option<string>,
    /** `mime.extension(type)`; `None` stands for its `false` result. */
    mimeExtension: string -> Option<string>,
    /** `JSON.parse`; `None` when it throws. */
    parseJson: string -> Option<JsonValue>,
    /** `JSON.stringify(value, null, 2)`. */
    stringify: JsonValue -> string)

  /** Reading a file that is not there rejects, as `readFile` does. */
  function ReadFileBase64(host: Host, path: string): (r: Result<string>)
    ensures r.Ok? <==> path in host.files
    ensures r.Ok? ==> r.value == host.files[path]
  {
    if path in host.files then Ok(host.files[path])
    else Err("ENOENT: no such file or directory, open '" + path + "'")
  }
}
