/** `Entity<TKey>`: identity of every persisted object. An entity is compared
    by its Id; its runtime type enters only its hash code. */
module Entity {
  import opened Options

  /** The runtime type of an entity (`GetType()`). */
  datatype EntityType = SenderType | DataFetcherType | RendererType | TemplateType | MessageType

  /** The part of an entity that equality and hashing look at. */
  datatype EntityRef<K> = EntityRef(kind: EntityType, id: K)

  /** Construction either yields an entity or throws `ArgumentNullException`. */
  datatype Constructed<K> = Constructed(entity: EntityRef<K>) | ArgumentNull(paramName: string)

  /** `protected Entity(TKey id)`: a null id is refused. */
  function Construct<K>(kind: EntityType, id: Option<K>): (r: Constructed<K>)
    ensures r.ArgumentNull? <==> id.None?
    ensures r.ArgumentNull? ==> r.paramName == "id"
    ensures r.Constructed? ==> r.entity.id == id.value && r.entity.kind == kind
  {
    match id
    case None => ArgumentNull("id")
    case Some(k) => Constructed(EntityRef(kind, k))
  }

  /** What `GetHashCode` combines: `HashCode.Combine(GetType(), Id)`. */
  function HashInputs<K>(e: EntityRef<K>): (r: (EntityType, K))
    ensures r.0 == e.kind && r.1 == e.id
  {
    (e.kind, e.id)
  }

  /** `Equals(Entity<TKey>? other)` as written: false for null, otherwise
      `Equals(Id, other.Id)`. The runtime type is not compared, because
      `obj as Entity<TKey>` accepts every entity class with the same key type.
      (`ReferenceEquals` implies equal Ids, so it adds no case.) */
  function EqualsAsWritten<K(==)>(self: EntityRef<K>, other: Option<EntityRef<K>>): (r: bool)
    ensures r ==> other.Some?
    ensures other.Some? ==> (r <==> self.id == other.value.id)
  {
    other.Some? && self.id == other.value.id
  }

  /** As written, a Sender and a Template with the same Id are equal although
      their hash inputs differ, which breaks the rule that equal objects hash
      alike. */
  lemma EqualsAsWrittenIgnoresType()
    ensures EqualsAsWritten(EntityRef(SenderType, "x"), Some(EntityRef(TemplateType, "x")))
    ensures HashInputs(EntityRef(SenderType, "x")) != HashInputs(EntityRef(TemplateType, "x"))
  {
  }

  /** Equality that also compares the runtime type, as the hash code does. */
  predicate Equals<K(==)>(self: EntityRef<K>, other: Option<EntityRef<K>>) {
    other.Some? && self.kind == other.value.kind && self.id == other.value.id
  }

  /** The corrected equality is compatible with hashing, never holds against
      null, is an equivalence, and agrees with the as-written one between
      entities of the same type. */
  lemma EqualsLaws<K>(a: EntityRef<K>, b: EntityRef<K>, c: EntityRef<K>)
    ensures Equals(a, Some(b)) ==> HashInputs(a) == HashInputs(b)
    ensures !Equals(a, None)
    ensures Equals(a, Some(a))
    ensures Equals(a, Some(b)) ==> Equals(b, Some(a))
    ensures Equals(a, Some(b)) && Equals(b, Some(c)) ==> Equals(a, Some(c))
    ensures a.kind == b.kind ==> (Equals(a, Some(b)) <==> EqualsAsWritten(a, Some(b)))
  {
  }

  /** The as-written equality is exactly equality of Ids, hence also an
      equivalence on non-null entities. */
  lemma EqualsAsWrittenLaws<K>(a: EntityRef<K>, b: EntityRef<K>, c: EntityRef<K>)
    ensures EqualsAsWritten(a, Some(b)) <==> a.id == b.id
    ensures !EqualsAsWritten(a, None)
    ensures EqualsAsWritten(a, Some(b)) ==> EqualsAsWritten(b, Some(a))
    ensures EqualsAsWritten(a, Some(b)) && EqualsAsWritten(b, Some(c)) ==> EqualsAsWritten(a, Some(c))
  {
  }

  /** `operator ==`: two nulls are equal, a null and an entity are not, and
      two entities defer to the as-written `Equals`, so only their Ids count. */
  function OpEquals<K(==)>(left: Option<EntityRef<K>>, right: Option<EntityRef<K>>): (r: bool)
    ensures left.None? && right.None? ==> r
    ensures left.None? != right.None? ==> !r
    ensures left.Some? && right.Some? ==> (r <==> left.value.id == right.value.id)
  {
    if left.None? && right.None? then true
    else if left.None? || right.None? then false
    else EqualsAsWritten(left.value, right)
  }

  /** `operator !=`: the negation of `==`. */
  function OpNotEquals<K(==)>(left: Option<EntityRef<K>>, right: Option<EntityRef<K>>): (r: bool)
    ensures r <==> (left.None? != right.None?) || (left.Some? && right.Some? && left.value.id != right.value.id)
  {
    !OpEquals(left, right)
  }

  /** `==` agrees with `Equals` on every non-null left operand, is an
      equivalence on possibly-null entities, and inherits the finding: a
      Sender and a Template with one Id compare equal. */
  lemma OpEqualsLaws<K>(a: Option<EntityRef<K>>, b: Option<EntityRef<K>>, c: Option<EntityRef<K>>)
    ensures a.Some? ==> (OpEquals(a, b) <==> EqualsAsWritten(a.value, b))
    ensures OpEquals(a, a)
    ensures OpEquals(a, b) ==> OpEquals(b, a)
    ensures OpEquals(a, b) && OpEquals(b, c) ==> OpEquals(a, c)
    ensures OpNotEquals(a, b) <==> !OpEquals(a, b)
    ensures OpEquals(Some(EntityRef(SenderType, "x")), Some(EntityRef(TemplateType, "x")))
  {
  }
}
