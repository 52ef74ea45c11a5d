/**
 * The persistent store (`GithubRepository`, a JPA repository keyed by
 * the record's `id`). Only the two calls the service makes are
 * modelled: `findById` and `save`. Ghost counters record how often each
 * is called, so that the service's contracts can say which calls happen.
 */
module Repo {
  import opened Wrappers
  import opened Entity

  /** Every row is stored under its own primary key. */
  ghost predicate KeyedById(rows: map<string, Github>) {
    forall k :: k in rows ==> rows[k].id == Some(k)
  }

  class GithubRepository {
    var rows: map<string, Github>
    ghost var findByIdCalls: nat
    ghost var saveCalls: nat

    ghost predicate Valid()
      reads this
    {
      KeyedById(rows)
    }

    constructor (initial: map<string, Github>)
      requires KeyedById(initial)
      ensures Valid()
      ensures rows == initial
      ensures findByIdCalls == 0 && saveCalls == 0
    {
      rows := initial;
      findByIdCalls, saveCalls := 0, 0;
    }

    /** The row stored under `id`, if any. Nothing is written. */
    method FindById(id: string) returns (r: Option<Github>)
      modifies this`findByIdCalls
      ensures r.Some? <==> id in rows
      ensures r.Some? ==> r.value == rows[id]
      ensures findByIdCalls == old(findByIdCalls) + 1
    {
      findByIdCalls := findByIdCalls + 1;
      if id in rows {
        r := Some(rows[id]);
      } else {
        r := None;
      }
    }

    /**
     * Inserts or replaces the row with the entity's primary key. A JPA
     * entity with an assigned `@Id` cannot be saved with a null id.
     */
    method Save(entity: Github) returns (saved: Github)
      requires Valid()
      requires entity.id.Some?
      modifies this`rows, this`saveCalls
      ensures rows == old(rows)[entity.id.value := entity]
      ensures saved == entity
      ensures saveCalls == old(saveCalls) + 1
      ensures Valid()
    {
      rows := rows[entity.id.value := entity];
      saveCalls := saveCalls + 1;
      saved := entity;
    }
  }
}
