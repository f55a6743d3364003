/** The backend's persistent state as the handlers see it: the `images`
    collection, keyed by `_id`, and the files present under the upload
    directories. */
module Storage {
  import opened ImageSchema

  class Store {
    /** The `images` collection. */
    var records: map<Id, ImageRecord>
    /** Paths for which `fs.existsSync` is true. */
    var files: set<string>
    /** Directories that exist. */
    var dirs: set<string>
    /** Paths whose `fs.unlinkSync` throws (permissions, a busy file). */
    const locked: set<string>

    ghost predicate Valid()
      reads this
    {
      forall k :: k in records ==> records[k].id == k
    }

    constructor (records0: map<Id, ImageRecord>, files0: set<string>, dirs0: set<string>, locked0: set<string>)
      requires forall k :: k in records0 ==> records0[k].id == k
      ensures Valid()
      ensures records == records0 && files == files0 && dirs == dirs0 && locked == locked0
    {
      records, files, dirs, locked := records0, files0, dirs0, locked0;
    }
  }

  /** Whether the image with this id exists and belongs to this user, the
      filter every per-image handler queries with. */
  predicate Owned(records: map<Id, ImageRecord>, id: Id, userId: Id) {
    id in records && records[id].userId == userId
  }

  /** The file paths of the records with the given ids. */
  ghost function PathsOf(records: map<Id, ImageRecord>, ids: set<Id>): set<string> {
    set k | k in ids && k in records :: records[k].path
  }
}
