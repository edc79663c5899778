/**
 YAML documents as trees, and the overlay of one document on another (deepMerge in
 internal/service/configsource_windows.go).
 */
module YamlTree {
  import opened Text

  /** The keys the client knows, whatever record they stand in, and any other by its name. */
  datatype Key =
    | Proxy | Apps | DirectSubnets | DirectDomains | BypassCIDRs | Mode | Coexistence | KillSwitch | ShowTray | ProxyAll
    | Dns | Control | Log | Update | ConfigSource | ManagedApps | ManagedSubnets | ManagedDomains
    | Address | Port | Username | Password | Udp | Interface
    | FakeIPv4 | FakeIPAll | FakeIPv6 | ClashAPI | Level
    | Endpoint | Channel | CheckInterval
    | Url | Interval | Signed | Merge | PubKey | PendingPubKey | DeclinedPubKey | Locked
    | ConfigUrl | UpdateEndpoint | UpdateChannel | UpdateMode
    | Other(name: string)

  datatype Yaml =
    | Null | Bool(flag: bool) | Num(number: int) | Str(text: string)
    | List(items: seq<Yaml>) | Map(fields: Fields)

  type Fields = map<Key, Yaml>

  /** The overlay of two values: maps merge key by key, everything else is replaced. */
  function Overlay(base: Yaml, patch: Yaml): Yaml
    decreases patch
  {
    if base.Map? && patch.Map? then
      Map(map k | k in base.fields.Keys + patch.fields.Keys ::
        if k !in patch.fields then base.fields[k]
        else if k !in base.fields then patch.fields[k]
        else Overlay(base.fields[k], patch.fields[k]))
    else patch
  }

  function Merged(base: Fields, patch: Fields): Fields {
    Overlay(Map(base), Map(patch)).fields
  }

  lemma MergedAt(base: Fields, patch: Fields, k: Key)
    requires k in base || k in patch
    ensures k in Merged(base, patch)
    ensures Merged(base, patch)[k] ==
            if k !in patch then base[k]
            else if k in base && base[k].Map? && patch[k].Map? then Map(Merged(base[k].fields, patch[k].fields))
            else patch[k]
  {
    if k in base && k in patch {
      assert Merged(base, patch)[k] == Overlay(base[k], patch[k]);
      if base[k].Map? && patch[k].Map? {
        assert base[k] == Map(base[k].fields) && patch[k] == Map(patch[k].fields);
        assert Overlay(base[k], patch[k]).Map?;
      }
    }
  }

  method Copy(base: Fields) returns (out: Fields)
    ensures out == base
  {
    out := map[];
    var todo := base.Keys;
    while todo != {}
      invariant todo <= base.Keys
      invariant out == map k | k in base && k !in todo :: base[k]
      decreases todo
    {
      var k :| k in todo;
      out := out[k := base[k]];
      todo := todo - {k};
    }
  }

  method DeepMerge(base: Fields, patch: Fields) returns (out: Fields)
    ensures out == Merged(base, patch)
    decreases Map(patch)
  {
    out := Copy(base);
    var todo := patch.Keys;
    while todo != {}
      invariant todo <= patch.Keys
      invariant out.Keys == base.Keys + (patch.Keys - todo)
      invariant forall k :: k in out ==> out[k] == if k in patch && k !in todo then Merged(base, patch)[k] else base[k]
      decreases todo
    {
      var k :| k in todo;
      todo := todo - {k};
      MergedAt(base, patch, k);
      if k in out && out[k].Map? && patch[k].Map? {
        var merged := DeepMerge(out[k].fields, patch[k].fields);
        out := out[k := Map(merged)];
      } else {
        out := out[k := patch[k]];
      }
    }
  }

  // ---- what the overlay means

  function At(y: Yaml, path: seq<Key>): Option<Yaml>
    decreases |path|
  {
    if path == [] then Some(y)
    else if y.Map? && path[0] in y.fields then At(y.fields[path[0]], path[1..])
    else None
  }

  /** The patch says nothing about this path: following it, a map lacks the next key. */
  predicate Silent(patch: Yaml, path: seq<Key>)
    decreases |path|
  {
    path != [] && patch.Map? && (path[0] in patch.fields ==> Silent(patch.fields[path[0]], path[1..]))
  }

  /**
   The overlay, stated path by path at every depth: where the patch is silent the base is unchanged; where both have a
   value the two are overlaid; everywhere else the patch decides, an explicit null included.
   */
  lemma {:induction false} OverlayAt(base: Yaml, patch: Yaml, path: seq<Key>)
    ensures At(Overlay(base, patch), path) ==
            if Silent(patch, path) then At(base, path)
            else if At(base, path).Some? && At(patch, path).Some?
              then Some(Overlay(At(base, path).value, At(patch, path).value))
            else At(patch, path)
    decreases |path|
  {
    if path != [] && base.Map? && patch.Map? && path[0] in patch.fields && path[0] in base.fields {
      OverlayAt(base.fields[path[0]], patch.fields[path[0]], path[1..]);
    } else if Silent(patch, path) {
      SilentHasNothing(patch, path);
    }
  }

  lemma {:induction false} SilentHasNothing(patch: Yaml, path: seq<Key>)
    requires Silent(patch, path)
    ensures At(patch, path).None?
    decreases |path|
  {
    if path[0] in patch.fields {
      SilentHasNothing(patch.fields[path[0]], path[1..]);
    }
  }

  /** Null replaces; it does not delete. */
  lemma NullReplaces(base: Yaml, patch: Yaml, path: seq<Key>)
    requires At(patch, path) == Some(Null)
    ensures At(Overlay(base, patch), path) == Some(Null)
  {
    OverlayAt(base, patch, path);
    if Silent(patch, path) {
      SilentHasNothing(patch, path);
    }
  }

  lemma EmptyIsUnit(m: Fields)
    ensures Merged(map[], m) == m && Merged(m, map[]) == m
  {
  }

  lemma {:induction false} OverlaySelf(p: Yaml)
    ensures Overlay(p, p) == p
  {
    if p.Map? {
      forall k | k in p.fields
        ensures Overlay(p.fields[k], p.fields[k]) == p.fields[k]
      {
        OverlaySelf(p.fields[k]);
      }
    }
  }

  /** Applying the same patch again changes nothing. */
  lemma {:induction false} OverlayTwice(base: Yaml, patch: Yaml)
    ensures Overlay(Overlay(base, patch), patch) == Overlay(base, patch)
    decreases patch
  {
    if base.Map? && patch.Map? {
      var once := Overlay(base, patch).fields;
      forall k | k in patch.fields
        ensures Overlay(once[k], patch.fields[k]) == once[k]
      {
        if k in base.fields {
          OverlayTwice(base.fields[k], patch.fields[k]);
        } else {
          OverlaySelf(patch.fields[k]);
        }
      }
      assert Overlay(Overlay(base, patch), patch).fields == once;
    } else {
      OverlaySelf(patch);
    }
  }

  // ---- when two patches can be combined beforehand

  /** The patch has every key of the base, at every depth where both are maps. */
  predicate Covers(patch: Yaml, base: Yaml)
    decreases patch
  {
    patch.Map? && base.Map? ==>
      forall k :: k in base.fields ==> k in patch.fields && Covers(patch.fields[k], base.fields[k])
  }

  lemma {:induction false} CoveringPatchWins(base: Yaml, patch: Yaml)
    ensures Overlay(base, patch) == patch <==> Covers(patch, base)
    decreases patch
  {
    if base.Map? && patch.Map? {
      forall k | k in base.fields && k in patch.fields
        ensures Overlay(base.fields[k], patch.fields[k]) == patch.fields[k]
                <==> Covers(patch.fields[k], base.fields[k])
      {
        CoveringPatchWins(base.fields[k], patch.fields[k]);
      }
      if Overlay(base, patch) == patch {
        forall k | k in base.fields
          ensures k in patch.fields && Overlay(base.fields[k], patch.fields[k]) == patch.fields[k]
        {
          assert k in Overlay(base, patch).fields;
        }
      }
    }
  }

  /**
   Nowhere does the middle document put something other than a map
   between two maps of which the last does not cover the first.
   */
  predicate Regroups(a: Yaml, b: Yaml, c: Yaml)
    decreases c
  {
    a.Map? && c.Map? ==>
      if b.Map? then
        forall k :: k in c.fields && k in a.fields && k in b.fields ==> Regroups(a.fields[k], b.fields[k], c.fields[k])
      else Covers(c, a)
  }

  /** Overlaying is not associative in general; it is exactly where `Regroups` holds. */
  lemma {:induction false} RegroupingIsExact(a: Yaml, b: Yaml, c: Yaml)
    ensures Overlay(Overlay(a, b), c) == Overlay(a, Overlay(b, c)) <==> Regroups(a, b, c)
    decreases c
  {
    if a.Map? && c.Map? {
      if b.Map? {
        var l, r := Overlay(Overlay(a, b), c).fields, Overlay(a, Overlay(b, c)).fields;
        assert l.Keys == r.Keys;
        forall k | k in l
          ensures l[k] == r[k] <==> (k in a.fields && k in b.fields && k in c.fields
                                     ==> Regroups(a.fields[k], b.fields[k], c.fields[k]))
        {
          if k in a.fields && k in b.fields && k in c.fields {
            RegroupingIsExact(a.fields[k], b.fields[k], c.fields[k]);
          }
        }
        assert l == r <==> forall k :: k in l ==> l[k] == r[k];
      } else {
        CoveringPatchWins(a, c);
      }
    }
  }

  /**
   A map, then a text, then a map at one key: applied in turn
   the first map is gone, combined beforehand it is merged in.
   */
  lemma OverlayIsNotAssociative()
    ensures var a, b, c := Map(map[Mode := Map(map[Url := Null])]), Map(map[Mode := Str("")]),
            Map(map[Mode := Map(map[])]);
            Overlay(Overlay(a, b), c) != Overlay(a, Overlay(b, c))
  {
    var a, b, c := Map(map[Url := Null]), Str(""), Map(map[]);
    assert Url in a.fields;
    assert !Regroups(a, b, c);
    var x, y, z := Map(map[Mode := a]), Map(map[Mode := b]), Map(map[Mode := c]);
    assert Mode in x.fields && Mode in y.fields && Mode in z.fields;
    assert x.fields[Mode] == a && y.fields[Mode] == b && z.fields[Mode] == c;
    RegroupingIsExact(x, y, z);
  }
}
