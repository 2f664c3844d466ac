/** Property catalogue handlers: the filtered listing, lookup, creation and update
    with uploaded images, and deletion.  The image host is the parameter `upload`,
    from a file path to the URL it is published under. */
module Properties {
  import opened Common
  import opened Models
  import opened Store
  import Schemas

  // ---- Listing ----------------------------------------------------------------

  /** The query string of GET /properties.  A price bound is present when its
      text is non-empty (so "0" is a bound), and is given here in cents. */
  datatype PropertyQuery = PropertyQuery(
    propertyType: Option<string>, status: Option<string>,
    minPrice: Option<int>, maxPrice: Option<int>)

  datatype PriceRange = PriceRange(gte: Option<int>, lte: Option<int>)

  /** The `where` object the handler hands to the store. */
  datatype Where = Where(propertyType: Option<string>, status: Option<string>, price: Option<PriceRange>)

  /** Each truthy field of the query adds its condition; a price condition exists
      when either bound is given. */
  function BuildWhere(q: PropertyQuery): (w: Where)
    ensures w.propertyType.Some? <==> Truthy(q.propertyType)
    ensures w.status.Some? <==> Truthy(q.status)
    ensures w.price.Some? <==> q.minPrice.Some? || q.maxPrice.Some?
  {
    var w := Where(None, None, None);
    var w := if Truthy(q.propertyType) then w.(propertyType := q.propertyType) else w;
    var w := if Truthy(q.status) then w.(status := q.status) else w;
    if q.minPrice.Some? || q.maxPrice.Some? then
      var range := PriceRange(None, None);
      var range := if q.minPrice.Some? then range.(gte := q.minPrice) else range;
      var range := if q.maxPrice.Some? then range.(lte := q.maxPrice) else range;
      w.(price := Some(range))
    else w
  }

  /** How the store evaluates a `where` object on one row: every condition must hold. */
  predicate Satisfies(p: Property, w: Where)
  {
    && (w.propertyType.Some? ==> p.propertyType == w.propertyType.value)
    && (w.status.Some? ==> PropertyStatusName(p.status) == w.status.value)
    && (w.price.Some? ==>
          && (w.price.value.gte.Some? ==> p.price >= w.price.value.gte.value)
          && (w.price.value.lte.Some? ==> p.price <= w.price.value.lte.value))
  }

  /** The listing's meaning, stated on the query directly: exact type, exact
      status, and inclusive price bounds, each only when given. */
  predicate Matches(p: Property, q: PropertyQuery)
  {
    && (Truthy(q.propertyType) ==> p.propertyType == q.propertyType.value)
    && (Truthy(q.status) ==> PropertyStatusName(p.status) == q.status.value)
    && (q.minPrice.Some? ==> q.minPrice.value <= p.price)
    && (q.maxPrice.Some? ==> p.price <= q.maxPrice.value)
  }

  /** The step-by-step `where` object selects exactly the rows the query means. */
  lemma WhereMeansQuery(p: Property, q: PropertyQuery)
    ensures Satisfies(p, BuildWhere(q)) <==> Matches(p, q)
  {
  }

  /** GET /properties.  A status that is no name of the ENUM column makes the
      store refuse the comparison (500); otherwise the rows matching the query. */
  function GetProperties(db: Db, q: PropertyQuery): (r: Outcome<map<int, Property>>)
    reads db
    ensures r.ServerError? <==> Truthy(q.status) && ParsePropertyStatus(q.status.value).None?
    ensures r.Ok? || r.ServerError?
    ensures r.Ok? ==> r.value.Keys <= db.properties.Keys
    ensures r.Ok? ==> forall k :: k in r.value ==> r.value[k] == db.properties[k]
    ensures r.Ok? ==> forall k :: k in db.properties ==> (k in r.value <==> Matches(db.properties[k], q))
  {
    if Truthy(q.status) && ParsePropertyStatus(q.status.value).None? then ServerError
    else
      var w := BuildWhere(q);
      var found := map k | k in db.properties && Satisfies(db.properties[k], w) :: db.properties[k];
      assert forall k :: k in db.properties ==> (Satisfies(db.properties[k], w) <==> Matches(db.properties[k], q)) by {
        forall k | k in db.properties {
          WhereMeansQuery(db.properties[k], q);
        }
      }
      Ok(found)
  }

  /** With no filter every property is listed. */
  lemma NoFilterListsAll(db: Db)
    ensures GetProperties(db, PropertyQuery(None, None, None, None)) == Ok(db.properties)
  {
    var r := GetProperties(db, PropertyQuery(None, None, None, None));
    assert r.value == db.properties;
  }

  /** `q2` asks at least what `q1` asks: every condition of `q1` is in `q2`, bounds
      only tightened. */
  predicate Narrows(q2: PropertyQuery, q1: PropertyQuery)
  {
    && (Truthy(q1.propertyType) ==> q2.propertyType == q1.propertyType)
    && (Truthy(q1.status) ==> q2.status == q1.status)
    && (q1.minPrice.Some? ==> q2.minPrice.Some? && q2.minPrice.value >= q1.minPrice.value)
    && (q1.maxPrice.Some? ==> q2.maxPrice.Some? && q2.maxPrice.value <= q1.maxPrice.value)
  }

  /** Adding or tightening a filter never enlarges the listing. */
  lemma NarrowingShrinksListing(db: Db, q1: PropertyQuery, q2: PropertyQuery)
    requires Narrows(q2, q1)
    requires GetProperties(db, q1).Ok? && GetProperties(db, q2).Ok?
    ensures GetProperties(db, q2).value.Keys <= GetProperties(db, q1).value.Keys
  {
  }

  /** A minimum above the maximum lists nothing. */
  lemma CrossedBoundsListNothing(db: Db, q: PropertyQuery)
    requires q.minPrice.Some? && q.maxPrice.Some? && q.minPrice.value > q.maxPrice.value
    requires GetProperties(db, q).Ok?
    ensures GetProperties(db, q).value == map[]
  {
  }

  /** GET /properties/:id. */
  function GetProperty(db: Db, id: int): (r: Outcome<Property>)
    reads db
    ensures id !in db.properties <==> r == NotFound("Property not found")
    ensures id in db.properties ==> r == Ok(db.properties[id])
  {
    if id in db.properties then Ok(db.properties[id]) else NotFound("Property not found")
  }

  // ---- Uploads ----------------------------------------------------------------

  /** The URLs of the uploaded files, in upload order. */
  function Uploaded(files: seq<string>, upload: string -> string): (urls: seq<string>)
    ensures |urls| == |files|
    ensures forall i :: 0 <= i < |files| ==> urls[i] == upload(files[i])
  {
    if |files| == 0 then []
    else Uploaded(files[..|files| - 1], upload) + [upload(files[|files| - 1])]
  }

  /** The upload loop: every file is uploaded in turn and its URL pushed onto
      `images`, which keeps what it held as a prefix. */
  method PushUploads(images: seq<string>, files: seq<string>, upload: string -> string)
    returns (result: seq<string>)
    ensures result == images + Uploaded(files, upload)
  {
    result := images;
    var i := 0;
    while i < |files|
      invariant 0 <= i <= |files|
      invariant result == images + Uploaded(files[..i], upload)
    {
      assert files[..i + 1][..i] == files[..i];
      result := result + [upload(files[i])];
      i := i + 1;
    }
    assert files[..i] == files;
  }

  // ---- Creation and update ----------------------------------------------------

  /** The row `Property.create` builds from a request body and the uploaded URLs,
      or ServerError when a NOT NULL column (title, address, price, type) would be
      NULL, the price does not fit its DECIMAL(10, 2) column, or the status is
      outside the ENUM.  An absent status becomes available. */
  function BuildProperty(id: int, b: Schemas.PropertyBody, images: seq<string>): (r: Outcome<Property>)
    ensures r.Ok? || r.ServerError?
    ensures r.ServerError? <==>
              || b.title.None? || b.address.None? || b.price.None? || b.propertyType.None?
              || !FitsDecimal(b.price.value)
              || (b.status.Some? && ParsePropertyStatus(b.status.value).None?)
    ensures r.Ok? ==>
              && r.value.id == id && Some(r.value.title) == b.title && Some(r.value.address) == b.address
              && Some(r.value.price) == b.price && Some(r.value.propertyType) == b.propertyType
              && r.value.description == b.description && r.value.images == images
              && (b.status.None? ==> r.value.status == Available)
              && (b.status.Some? ==> PropertyStatusName(r.value.status) == b.status.value)
  {
    if b.title.None? || b.address.None? || b.price.None? || b.propertyType.None? then ServerError
    else if !FitsDecimal(b.price.value) then ServerError
    else if b.status.Some? && ParsePropertyStatus(b.status.value).None? then ServerError
    else
      var status := if b.status.Some? then ParsePropertyStatus(b.status.value) else None;
      Ok(NewProperty(id, b.title.value, b.description, b.address.value, b.price.value,
                     b.propertyType.value, status, Some(images)))
  }

  /** A body the create schema accepts is stored exactly when its price fits
      the column: the schema itself puts no bound on the number. */
  lemma ValidCreateBodyIsStored(id: int, b: Schemas.PropertyBody, images: seq<string>)
    requires Schemas.ValidPropertyCreate(b)
    ensures BuildProperty(id, b, images).Ok? <==> FitsDecimal(b.price.value)
    ensures BuildProperty(id, b, images).Ok? ==>
              BuildProperty(id, b, images).value.propertyType in Schemas.PropertyTypes
  {
    Schemas.PropertySchemasAgree(b);
  }

  /** POST /properties: upload the files, then insert the row.  The new row holds
      one URL per file in upload order, `[]` when there are none. */
  method CreateProperty(db: Db, b: Schemas.PropertyBody, files: seq<string>, upload: string -> string)
    returns (r: Outcome<Property>)
    requires db.Valid()
    modifies db`properties, db`nextPropertyId
    ensures db.Valid()
    ensures r == BuildProperty(old(db.nextPropertyId), b, Uploaded(files, upload))
    ensures r.Ok? ==>
              && db.properties == old(db.properties)[r.value.id := r.value]
              && db.nextPropertyId == old(db.nextPropertyId) + 1
    ensures !r.Ok? ==> unchanged(db)
  {
    var images := PushUploads([], files, upload);
    assert images == Uploaded(files, upload);
    r := BuildProperty(db.nextPropertyId, b, images);
    if r.Ok? {
      db.properties := db.properties[r.value.id := r.value];
      db.nextPropertyId := db.nextPropertyId + 1;
    }
  }

  /** `property.update({...})`: each field present in the body is written, each
      absent one kept; the status must name an ENUM value and a new price must fit
      its DECIMAL(10, 2) column.  The image list is the one the handler assembled. */
  function ApplyPropertyUpdate(p: Property, b: Schemas.PropertyBody, images: seq<string>): (r: Outcome<Property>)
    ensures r.Ok? || r.ServerError?
    ensures r.ServerError? <==>
              || (b.status.Some? && ParsePropertyStatus(b.status.value).None?)
              || (b.price.Some? && !FitsDecimal(b.price.value))
    ensures r.Ok? ==>
              && r.value.id == p.id && r.value.images == images
              && r.value.title == (if b.title.Some? then b.title.value else p.title)
              && r.value.address == (if b.address.Some? then b.address.value else p.address)
              && r.value.price == (if b.price.Some? then b.price.value else p.price)
              && r.value.propertyType == (if b.propertyType.Some? then b.propertyType.value else p.propertyType)
              && r.value.description == (if b.description.Some? then b.description else p.description)
              && (b.status.None? ==> r.value.status == p.status)
              && (b.status.Some? ==> PropertyStatusName(r.value.status) == b.status.value)
  {
    var status := if b.status.Some? then ParsePropertyStatus(b.status.value) else Some(p.status);
    if status.None? || (b.price.Some? && !FitsDecimal(b.price.value)) then ServerError
    else
      Ok(p.(title := if b.title.Some? then b.title.value else p.title,
            description := if b.description.Some? then b.description else p.description,
            address := if b.address.Some? then b.address.value else p.address,
            price := if b.price.Some? then b.price.value else p.price,
            propertyType := if b.propertyType.Some? then b.propertyType.value else p.propertyType,
            status := status.value,
            images := images))
  }

  /** A body the update schema accepts is stored exactly when a new price, if
      any, fits the column, and an empty body with no files leaves the property
      as it was. */
  lemma UpdateBodies(p: Property, b: Schemas.PropertyBody, images: seq<string>)
    ensures Schemas.ValidPropertyUpdate(b) ==>
              (ApplyPropertyUpdate(p, b, images).Ok? <==> (b.price.Some? ==> FitsDecimal(b.price.value)))
    ensures ApplyPropertyUpdate(p, Schemas.PropertyBody(None, None, None, None, None, None), p.images) == Ok(p)
  {
    Schemas.PropertySchemasAgree(b);
  }

  /** PUT /properties/:id.  A missing property answers 404 and nothing changes.
      Otherwise the new files' URLs are appended, in order, after the images the
      property already had, and the present fields are written. */
  method UpdateProperty(db: Db, id: int, b: Schemas.PropertyBody, files: seq<string>, upload: string -> string)
    returns (r: Outcome<Property>)
    requires db.Valid()
    modifies db`properties
    ensures db.Valid()
    ensures id !in old(db.properties) ==> r == NotFound("Property not found") && unchanged(db)
    ensures id in old(db.properties) ==>
              var before := old(db.properties)[id];
              r == ApplyPropertyUpdate(before, b, before.images + Uploaded(files, upload))
    ensures r.Ok? ==>
              && db.properties == old(db.properties)[id := r.value]
              && r.value.images[..|old(db.properties)[id].images|] == old(db.properties)[id].images
    ensures !r.Ok? ==> unchanged(db)
  {
    if id !in db.properties {
      return NotFound("Property not found");
    }
    var property := db.properties[id];
    var images := PushUploads(property.images, files, upload);
    r := ApplyPropertyUpdate(property, b, images);
    if r.Ok? {
      db.properties := db.properties[id := r.value];
    }
  }

  /** DELETE /properties/:id: removes exactly that property. */
  method DeleteProperty(db: Db, id: int) returns (r: Outcome<string>)
    requires db.Valid()
    modifies db`properties
    ensures db.Valid()
    ensures id !in old(db.properties) ==> r == NotFound("Property not found") && unchanged(db)
    ensures id in old(db.properties) ==>
              && r == Ok("Property removed")
              && db.properties == old(db.properties) - {id}
              && db.properties.Keys == old(db.properties).Keys - {id}
  {
    if id !in db.properties {
      return NotFound("Property not found");
    }
    db.properties := db.properties - {id};
    r := Ok("Property removed");
  }
}
