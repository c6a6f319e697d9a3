/**
  Worker::documentOf of packages/php/src/Worker.php: the config document made
  of an app's config and the units its code defines. JSON encoding is left out:
  a document is the value that is encoded.
 */
module Documents {
  import opened Wrappers

  /** The options of one task or service, as JSON. */
  type Options = string

  /** One definition of the app; its argv never reaches the daemon. */
  datatype Unit = Unit(options: Options, argv: seq<string>, service: bool)

  datatype Config = Config(rest: string, tasks: map<string, Options>, services: map<string, Options>)

  /** An app's config and units, as its code defines them. */
  datatype Definition = Definition(config: Config, units: map<string, Unit>)

  /** A table of the document: with sdk, the app runs it. */
  datatype Table = Table(options: Options, sdk: bool)

  datatype Document = Document(rest: string, tasks: map<string, Table>, services: map<string, Table>)

  /** The config defines a task or service that the code defines too. */
  predicate Clashes(def: Definition) {
    exists name :: name in def.units && Clash(def, name)
  }

  function Plain(tables: map<string, Options>): map<string, Table> {
    map name | name in tables :: Table(tables[name], false)
  }

  function SdkTables(units: map<string, Unit>, service: bool): map<string, Table> {
    map name | name in units && units[name].service == service :: Table(units[name].options, true)
  }

  /** The document of a definition; None where documentOf throws. */
  function DocumentOf(def: Definition): Option<Document> {
    if Clashes(def) then None
    else Some(Document(def.config.rest,
                       Plain(def.config.tasks) + SdkTables(def.units, false),
                       Plain(def.config.services) + SdkTables(def.units, true)))
  }

  /** The tables of one kind once the units named in seen were added. */
  ghost function Tables(def: Definition, seen: set<string>, service: bool): map<string, Table>
    requires seen <= def.units.Keys
  {
    Plain(if service then def.config.services else def.config.tasks)
      + (map name | name in seen && def.units[name].service == service :: Table(def.units[name].options, true))
  }

  lemma OneMoreUnit(def: Definition, seen: set<string>, name: string, service: bool)
    requires seen <= def.units.Keys && name in def.units.Keys - seen
    ensures Tables(def, seen + {name}, service)
         == if def.units[name].service == service
            then Tables(def, seen, service)[name := Table(def.units[name].options, true)]
            else Tables(def, seen, service)
  {
  }

  predicate Clash(def: Definition, name: string) {
    name in def.config.tasks || name in def.config.services
  }

  /** The tables collected once the units named in seen were added, none of which clashed. */
  ghost predicate Collected(def: Definition, seen: set<string>, tasks: map<string, Table>, services: map<string, Table>) {
    && seen <= def.units.Keys && (forall name :: name in seen ==> !Clash(def, name))
    && tasks == Tables(def, seen, false) && services == Tables(def, seen, true)
  }

  /** A new unit is among the tables collected only if the config defines it. */
  lemma AmongTables(def: Definition, seen: set<string>, tasks: map<string, Table>, services: map<string, Table>, name: string)
    requires Collected(def, seen, tasks, services) && name in def.units.Keys - seen
    ensures name in tasks || name in services <==> Clash(def, name)
  {
  }

  lemma CollectedOneMore(def: Definition, seen: set<string>, tasks: map<string, Table>, services: map<string, Table>, name: string)
    requires Collected(def, seen, tasks, services) && name in def.units.Keys - seen && !Clash(def, name)
    ensures var table := Table(def.units[name].options, true);
            if def.units[name].service then Collected(def, seen + {name}, tasks, services[name := table])
            else Collected(def, seen + {name}, tasks[name := table], services)
  {
    OneMoreUnit(def, seen, name, false);
    OneMoreUnit(def, seen, name, true);
  }

  lemma CollectedAll(def: Definition, tasks: map<string, Table>, services: map<string, Table>)
    requires Collected(def, def.units.Keys, tasks, services)
    ensures DocumentOf(def) == Some(Document(def.config.rest, tasks, services))
  {
    AllUnits(def);
  }

  /** The loop: each unit is checked against the tables collected so far, its own kind's and the other's. */
  method BuildDocument(def: Definition) returns (doc: Option<Document>)
    ensures doc == DocumentOf(def)
  {
    var tasks, services := Plain(def.config.tasks), Plain(def.config.services);
    var left := def.units.Keys;
    ghost var seen := {};
    while left != {}
      invariant left == def.units.Keys - seen && Collected(def, seen, tasks, services)
      decreases left
    {
      var name :| name in left;
      var unit := def.units[name];
      AmongTables(def, seen, tasks, services, name);
      if name in tasks || name in services {
        return None;
      }
      CollectedOneMore(def, seen, tasks, services, name);
      if unit.service {
        services := services[name := Table(unit.options, true)];
      } else {
        tasks := tasks[name := Table(unit.options, true)];
      }
      left, seen := left - {name}, seen + {name};
    }
    assert seen == def.units.Keys;
    CollectedAll(def, tasks, services);
    doc := Some(Document(def.config.rest, tasks, services));
  }

  lemma AllUnits(def: Definition)
    ensures Tables(def, def.units.Keys, false) == Plain(def.config.tasks) + SdkTables(def.units, false)
    ensures Tables(def, def.units.Keys, true) == Plain(def.config.services) + SdkTables(def.units, true)
  {
  }
}
