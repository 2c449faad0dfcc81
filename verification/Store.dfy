/** The manager's store: one database, updated in place by every handler. */
module Store {
  import opened Model

  class Store {
    var db: Database

    constructor (db: Database)
      ensures this.db == db
    {
      this.db := db;
    }
  }
}
