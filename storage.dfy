/**
 * The local folders the models are persisted to: one JSON document per file,
 * read with `json.loads(read_text_file(...))` and written with
 * `save_dict_to_json` (src/modules/file.py is not part of this model).
 */
module Storage {
  import opened Json

  /** What a file holds: a decoded JSON document, or text `json.loads` rejects. */
  datatype FileContent = Document(value: Value) | Unparsable

  /** The files that exist, by path. */
  class Disk {
    var files: map<string, FileContent>

    constructor (files: map<string, FileContent>)
      ensures this.files == files
    {
      this.files := files;
    }
  }

  /** `os.path.join(folder, name)` on POSIX paths. */
  function PathJoin(folder: string, name: string): (path: string)
    ensures name != [] && name[0] == '/' ==> path == name
    ensures (name == [] || name[0] != '/') && folder != [] && folder[|folder| - 1] != '/' ==> path == folder + "/" + name
  {
    if name != [] && name[0] == '/' then name
    else if folder == [] || folder[|folder| - 1] == '/' then folder + name
    else folder + "/" + name
  }
}
