/** Value converters keyed by target type. A converter pairs a type with a
    one-argument callback; a converter mapping is a mutable table from type
    to converter that passes values through when no converter is registered
    for the requested type. Python's `Any` values are the type parameter `V`. */
module Converters {
  import opened Wrappers
  import opened GatewayApi

  /** A Python type object, by identity. */
  type TypeKey = nat

  datatype Converter<!V> = Converter(typeKey: TypeKey, callback: V -> V)

  /** `converter(type_)(func)`: the decorator builds a converter for the
      type from the decorated function. */
  function Decorate<V>(typeKey: TypeKey, func: V -> V): (c: Converter<V>)
    ensures c.typeKey == typeKey && c.callback == func
  {
    Converter(typeKey, func)
  }

  /** `Converter.__call__`: the requested type is ignored; only the callback
      decides the result. */
  function Apply<V>(c: Converter<V>, requested: TypeKey, value: V): V {
    c.callback(value)
  }

  /** A decorated function converts every value as the function itself does,
      whatever type is requested. */
  lemma DecoratedApply<V>(typeKey: TypeKey, func: V -> V, requested: TypeKey, value: V)
    ensures Apply(Decorate(typeKey, func), requested, value) == func(value)
    ensures Apply(Decorate(typeKey, func), requested, value) == Apply(Decorate(typeKey, func), typeKey, value)
  {
  }

  /** `ConverterMapping.__call__` over the table `m`. Converter objects are
      always truthy, so a registered converter is always applied. */
  function CallIn<V>(m: map<TypeKey, Converter<V>>, t: TypeKey, value: V): (r: V)
    ensures t !in m ==> r == value
    ensures t in m ==> r == m[t].callback(value)
  {
    if t in m then Apply(m[t], t, value) else value
  }

  /** `dict.update`: every entry of `b`, and the entries of `a` whose key
      `b` does not have. */
  function Merged<V>(a: map<TypeKey, Converter<V>>, b: map<TypeKey, Converter<V>>): (r: map<TypeKey, Converter<V>>)
    ensures r.Keys == a.Keys + b.Keys
    ensures forall k :: k in b ==> r[k] == b[k]
    ensures forall k :: k in a && k !in b ==> r[k] == a[k]
  {
    map k | k in a.Keys + b.Keys :: if k in b then b[k] else a[k]
  }

  /** After a merge, each type converts as the right-hand table does when it
      has a converter for it, and as the left-hand table otherwise. */
  lemma CallMerged<V>(a: map<TypeKey, Converter<V>>, b: map<TypeKey, Converter<V>>, t: TypeKey, value: V)
    ensures CallIn(Merged(a, b), t, value) == if t in b then CallIn(b, t, value) else CallIn(a, t, value)
  {
  }

  /** Updating with the tables one after the other or with their merge gives
      the same table. */
  lemma MergedAssociative<V>(a: map<TypeKey, Converter<V>>, b: map<TypeKey, Converter<V>>, c: map<TypeKey, Converter<V>>)
    ensures Merged(Merged(a, b), c) == Merged(a, Merged(b, c))
  {
  }

  /** A table merged with itself is unchanged: `m |= m` is a no-op. */
  lemma MergedSelf<V>(a: map<TypeKey, Converter<V>>)
    ensures Merged(a, a) == a
  {
  }

  /** `Converter.__or__`: a new table holding both converters under their
      own types; on a clash the right-hand converter wins. */
  function PairTable<V>(left: Converter<V>, right: Converter<V>): (r: map<TypeKey, Converter<V>>)
    ensures r.Keys == {left.typeKey, right.typeKey}
    ensures r[right.typeKey] == right
    ensures left.typeKey != right.typeKey ==> r[left.typeKey] == left
  {
    map[left.typeKey := left][right.typeKey := right]
  }

  /** The right operand of `ConverterMapping.__or__`. */
  datatype Operand<!V> = OneConverter(c: Converter<V>) | Table(m: ConverterMapping<V>)

  class ConverterMapping<V> {
    /** `_mapping` */
    var mapping: map<TypeKey, Converter<V>>

    constructor ()
      ensures mapping == map[]
    {
      mapping := map[];
    }

    /** `__setitem__`: the key need not be the converter's own type. */
    method SetItem(key: TypeKey, value: Converter<V>)
      modifies this
      ensures mapping == old(mapping)[key := value]
    {
      mapping := mapping[key := value];
    }

    /** `__getitem__`: KeyError for a type with no converter. */
    function GetItem(key: TypeKey): (r: Result<Converter<V>, Failure>)
      reads this
      ensures r.Success? <==> key in mapping
      ensures r.Success? ==> r.value == mapping[key]
      ensures r.Failure? ==> r.error == KeyError
    {
      if key in mapping then Success(mapping[key]) else Failure(KeyError)
    }

    /** `__call__`: converts with the registered converter, or passes the
        value through. */
    function Call(t: TypeKey, value: V): (r: V)
      reads this
      ensures r == CallIn(mapping, t, value)
      ensures t !in mapping ==> r == value
      ensures t in mapping ==> r == mapping[t].callback(value)
    {
      CallIn(mapping, t, value)
    }

    /** `__ior__`: takes over every entry of the other table and returns this
        table itself. */
    method IOr(other: ConverterMapping<V>) returns (r: ConverterMapping<V>)
      modifies this
      ensures r == this
      ensures mapping == Merged(old(mapping), old(other.mapping))
    {
      mapping := Merged(mapping, other.mapping);
      r := this;
    }

    /** `__or__`: in place, like `__ior__`; a converter operand is stored
        under its own type. */
    method Or(other: Operand<V>) returns (r: ConverterMapping<V>)
      modifies this
      ensures r == this
      ensures other.OneConverter? ==> mapping == old(mapping)[other.c.typeKey := other.c]
      ensures other.Table? ==> mapping == Merged(old(mapping), old(other.m.mapping))
    {
      match other {
        case OneConverter(c) =>
          SetItem(c.typeKey, c);
        case Table(m) =>
          var _ := IOr(m);
      }
      r := this;
    }
  }

  /** `Converter.__or__`, building the fresh table entry by entry. */
  method ConverterOr<V>(left: Converter<V>, right: Converter<V>) returns (m: ConverterMapping<V>)
    ensures fresh(m)
    ensures m.mapping == PairTable(left, right)
  {
    m := new ConverterMapping();
    m.SetItem(left.typeKey, left);
    m.SetItem(right.typeKey, right);
  }
}
