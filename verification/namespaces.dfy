/** Queue namespaces: the naming a namespace applies to a queue name before
    the name is used as a backend key. The base naming that a prefixed
    namespace extends is not part of this model; it is a parameter. */
module Namespaces {
  import opened Types
  import Protocol

  /** The empty namespace names every queue by its own name. */
  function EmptyName(queueName: string): (name: string)
    ensures name == queueName
  {
    queueName
  }

  /** A prefixed namespace puts `prefix` and a colon before the base naming of the queue. */
  function PrefixedName(prefix: string, base: string -> string, queueName: string): (name: string)
    ensures |name| == |prefix| + 1 + |base(queueName)|
    ensures name[..|prefix|] == prefix
    ensures name[|prefix|] == ':'
    ensures name[|prefix| + 1..] == base(queueName)
  {
    prefix + ":" + base(queueName)
  }

  /** Removes a leading `prefix` and colon from `name`, if it has them. */
  function StripPrefix(prefix: string, name: string): (r: Option<string>)
    ensures r.Some? <==> |name| > |prefix| && name[..|prefix|] == prefix && name[|prefix|] == ':'
    ensures r.Some? ==> prefix + ":" + r.value == name
  {
    if |name| > |prefix| && name[..|prefix|] == prefix && name[|prefix|] == ':' then
      assert name == name[..|prefix|] + [name[|prefix|]] + name[|prefix| + 1..];
      Some(name[|prefix| + 1..])
    else
      None
  }

  /** Stripping the prefix from a prefixed name gives back the base naming. */
  lemma StripRecoversBase(prefix: string, base: string -> string, queueName: string)
    ensures StripPrefix(prefix, PrefixedName(prefix, base, queueName)) == Some(base(queueName))
  {
  }

  /** For a fixed prefix, an injective base naming gives an injective prefixed naming. */
  lemma PrefixedInjective(prefix: string, base: string -> string)
    requires forall a, b :: base(a) == base(b) ==> a == b
    ensures forall a, b :: PrefixedName(prefix, base, a) == PrefixedName(prefix, base, b) ==> a == b
  {
    forall a, b | PrefixedName(prefix, base, a) == PrefixedName(prefix, base, b)
      ensures a == b
    {
      StripRecoversBase(prefix, base, a);
      StripRecoversBase(prefix, base, b);
    }
  }

  /** Namespace `app` over the default queue-key naming resolves queue `low` to `app:queue:low`. */
  lemma PrefixedExample()
    ensures PrefixedName("app", Protocol.QueueKey, "low") == "app:queue:low"
  {
  }
}
