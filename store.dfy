/**
 * The abstract store: a database holding named collections, and the lookup
 * `getCollections` performs to find a thing's two collections. The collections
 * are objects shared by everyone who looks them up, as the driver's collection
 * handles share the one server-side collection.
 */
module Store {
  import opened Wrappers
  import opened JsValues
  import opened Documents

  class CommandCollection {
    var docs: seq<CommandDoc>

    constructor (docs: seq<CommandDoc>)
      ensures this.docs == docs
    {
      this.docs := docs;
    }
  }

  class StatusCollection {
    var docs: seq<StatusDoc>

    constructor (docs: seq<StatusDoc>)
      ensures this.docs == docs
    {
      this.docs := docs;
    }
  }

  /** A connected database: the collections `db.collection(name)` can find. */
  class Database {
    const commandCollections: map<string, CommandCollection>
    const statusCollections: map<string, StatusCollection>

    constructor (commandCollections: map<string, CommandCollection>, statusCollections: map<string, StatusCollection>)
      ensures this.commandCollections == commandCollections && this.statusCollections == statusCollections
    {
      this.commandCollections := commandCollections;
      this.statusCollections := statusCollections;
    }
  }

  /** Why `getCollections` reports an error, in the order it checks. */
  datatype CollectionsError =
    | NoThingName            // the thing name is falsy
    | NoDatabase             // `connect` has not set the database object
    | NoCollection(name: string)  // `db.collection(name)` answered an error

  /** `thingName + suffix`, the name of one of a thing's collections. */
  function CollectionName(thingName: Value, suffix: Value): (name: string)
    ensures |name| == |ToStr(thingName)| + |ToStr(suffix)|
    ensures name[..|ToStr(thingName)|] == ToStr(thingName) && name[|ToStr(thingName)|..] == ToStr(suffix)
  {
    ToStr(thingName) + ToStr(suffix)
  }

  /**
   * One thing's two collections have the same name exactly when the two
   * suffixes read the same, so with the default `"_queries"` and `"_status"`
   * they are never confused.
   */
  lemma CollectionNamesDiffer(thingName: Value, suffix1: Value, suffix2: Value)
    ensures CollectionName(thingName, suffix1) == CollectionName(thingName, suffix2) <==> ToStr(suffix1) == ToStr(suffix2)
  {
    var n := |ToStr(thingName)|;
    if CollectionName(thingName, suffix1) == CollectionName(thingName, suffix2) {
      assert ToStr(suffix1) == CollectionName(thingName, suffix1)[n..];
    }
  }

  /**
   * `getCollections(thingName, callback)`: the thing's queries and status
   * collections, or the first failed check: the thing name before the database,
   * the queries collection before the status collection.
   */
  function GetCollections(thingName: Value, db: Database?, queriesSuffix: Value, statusSuffix: Value)
    : (r: Result<(CommandCollection, StatusCollection), CollectionsError>)
    ensures !Truthy(thingName) ==> r == Failure(NoThingName)
    ensures Truthy(thingName) && db == null ==> r == Failure(NoDatabase)
    ensures r.Success? <==>
      && Truthy(thingName) && db != null
      && CollectionName(thingName, queriesSuffix) in db.commandCollections
      && CollectionName(thingName, statusSuffix) in db.statusCollections
    ensures r.Success? ==> r.value == (db.commandCollections[CollectionName(thingName, queriesSuffix)],
                                       db.statusCollections[CollectionName(thingName, statusSuffix)])
    ensures r.Failure? && r.error.NoCollection? ==>
      r.error.name == if CollectionName(thingName, queriesSuffix) !in db.commandCollections
                      then CollectionName(thingName, queriesSuffix)
                      else CollectionName(thingName, statusSuffix)
  {
    if !Truthy(thingName) then Failure(NoThingName)
    else if db == null then Failure(NoDatabase)
    else
      var queriesName := CollectionName(thingName, queriesSuffix);
      if queriesName !in db.commandCollections then Failure(NoCollection(queriesName))
      else
        var statusName := CollectionName(thingName, statusSuffix);
        if statusName !in db.statusCollections then Failure(NoCollection(statusName))
        else Success((db.commandCollections[queriesName], db.statusCollections[statusName]))
  }
}
