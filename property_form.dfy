/** The administrator's property form: field state, the list of newly chosen
    files, the list of image previews (stored images first, then one blob per
    new file), and the multipart body it submits. */
module PropertyForm {
  import opened Common

  // ---- Field state ------------------------------------------------------------

  datatype FieldValue = Text(text: string) | Flag(on: bool)

  /** The form's fields in insertion order, one entry per name. */
  type Fields = seq<(string, FieldValue)>

  function Names(fd: Fields): (names: seq<string>)
    ensures |names| == |fd|
    ensures forall i :: 0 <= i < |fd| ==> names[i] == fd[i].0
  {
    if fd == [] then [] else [fd[0].0] + Names(fd[1..])
  }

  /** The value stored under `name`, if the form has that field. */
  function Lookup(fd: Fields, name: string): (v: Option<FieldValue>)
    ensures v.Some? <==> name in Names(fd)
  {
    if fd == [] then None
    else if fd[0].0 == name then Some(fd[0].1)
    else Lookup(fd[1..], name)
  }

  /** `{ ...prev, [name]: value }`: the field takes the new value in place, or is
      added at the end when the form did not have it. */
  function SetField(fd: Fields, name: string, value: FieldValue): (r: Fields)
    ensures |r| == |fd| || |r| == |fd| + 1
  {
    if fd == [] then [(name, value)]
    else if fd[0].0 == name then [(name, value)] + fd[1..]
    else [fd[0]] + SetField(fd[1..], name, value)
  }

  /** After the spread the named field holds the new value. */
  lemma {:induction false} SetFieldSets(fd: Fields, name: string, value: FieldValue)
    ensures Lookup(SetField(fd, name, value), name) == Some(value)
  {
    if fd == [] {
      LookupInFront((name, value), [], name);
    } else if fd[0].0 == name {
      LookupInFront((name, value), fd[1..], name);
    } else {
      SetFieldSets(fd[1..], name, value);
      LookupInFront(fd[0], SetField(fd[1..], name, value), name);
    }
  }

  /** The spread keeps the field names and their order, appending the name when
      it is new. */
  lemma {:induction false} SetFieldNames(fd: Fields, name: string, value: FieldValue)
    ensures name in Names(fd) ==> Names(SetField(fd, name, value)) == Names(fd)
    ensures name !in Names(fd) ==> Names(SetField(fd, name, value)) == Names(fd) + [name]
  {
    if fd == [] {
      NamesInFront((name, value), []);
    } else {
      assert fd == [fd[0]] + fd[1..];
      NamesInFront(fd[0], fd[1..]);
      if fd[0].0 == name {
        NamesInFront((name, value), fd[1..]);
      } else {
        var rest := SetField(fd[1..], name, value);
        SetFieldNames(fd[1..], name, value);
        NamesInFront(fd[0], rest);
        assert name in Names(fd) <==> name in Names(fd[1..]);
        if name !in Names(fd) {
          assert [fd[0].0] + (Names(fd[1..]) + [name]) == ([fd[0].0] + Names(fd[1..])) + [name];
        }
      }
    }
  }

  /** After the spread every other field keeps its value. */
  lemma {:induction false} SetFieldKeepsOthers(fd: Fields, name: string, value: FieldValue, other: string)
    requires other != name
    ensures Lookup(SetField(fd, name, value), other) == Lookup(fd, other)
  {
    if fd != [] {
      assert fd == [fd[0]] + fd[1..];
      LookupInFront(fd[0], fd[1..], other);
      if fd[0].0 == name {
        LookupInFront((name, value), fd[1..], other);
      } else {
        SetFieldKeepsOthers(fd[1..], name, value, other);
        LookupInFront(fd[0], SetField(fd[1..], name, value), other);
      }
    }
  }

  /** A field placed in front comes first in the names. */
  lemma NamesInFront(field: (string, FieldValue), rest: Fields)
    ensures Names([field] + rest) == [field.0] + Names(rest)
  {
    assert ([field] + rest)[1..] == rest;
  }

  /** A field placed in front shadows its name and leaves the others to the rest. */
  lemma LookupInFront(field: (string, FieldValue), rest: Fields, other: string)
    ensures Lookup([field] + rest, other) == if field.0 == other then Some(field.1) else Lookup(rest, other)
  {
    assert ([field] + rest)[1..] == rest;
  }

  /** What the form starts from (`initialData`); falsy values (absent, empty,
      zero) are given as None, and so is an absent id, which reads as
      `undefined`.  The images are the stored URLs. */
  datatype InitialData = InitialData(
    id: Option<int>, title: Option<string>, description: Option<string>, address: Option<string>,
    price: Option<string>, propertyType: Option<string>, status: Option<string>,
    bedrooms: Option<string>, bathrooms: Option<string>, area: Option<string>,
    hasGarden: Option<bool>, hasBalcony: Option<bool>, images: Option<seq<string>>)

  /** `initialData = {}`: the default, and what both routes of the app give the
      form, the edit route included. */
  const NO_INITIAL_DATA: InitialData :=
    InitialData(None, None, None, None, None, None, None, None, None, None, None, None, None)

  const FIELD_NAMES: seq<string> :=
    ["title", "description", "address", "price", "type", "status",
     "bedrooms", "bathrooms", "area", "hasGarden", "hasBalcony"]

  function FlagOr(b: Option<bool>): bool
  {
    b == Some(true)
  }

  /** A field's value is found when no earlier field has its name. */
  lemma {:induction false} LookupFinds(fd: Fields, i: int)
    requires 0 <= i < |fd|
    requires forall j :: 0 <= j < i ==> fd[j].0 != fd[i].0
    ensures Lookup(fd, fd[i].0) == Some(fd[i].1)
  {
    if i > 0 {
      LookupFinds(fd[1..], i - 1);
    }
  }

  /** The initial field state: each value `|| ''`, except type (`|| 'Apartment'`),
      status (`|| 'available'`) and the two checkboxes (`|| false`). */
  function InitialFields(d: InitialData): Fields
  {
    [("title", Text(OrString(d.title, ""))),
     ("description", Text(OrString(d.description, ""))),
     ("address", Text(OrString(d.address, ""))),
     ("price", Text(OrString(d.price, ""))),
     ("type", Text(OrString(d.propertyType, "Apartment"))),
     ("status", Text(OrString(d.status, "available"))),
     ("bedrooms", Text(OrString(d.bedrooms, ""))),
     ("bathrooms", Text(OrString(d.bathrooms, ""))),
     ("area", Text(OrString(d.area, ""))),
     ("hasGarden", Flag(FlagOr(d.hasGarden))),
     ("hasBalcony", Flag(FlagOr(d.hasBalcony)))]
  }

  lemma InitialFieldNames(d: InitialData)
    ensures Names(InitialFields(d)) == FIELD_NAMES
  {
    var fd := InitialFields(d);
    var names := Names(fd);
    assert |names| == |FIELD_NAMES|;
    forall i | 0 <= i < |names|
      ensures names[i] == FIELD_NAMES[i]
    {
      assert names[i] == fd[i].0;
    }
  }

  lemma InitialTitle(d: InitialData)
    ensures Lookup(InitialFields(d), "title") == Some(Text(OrString(d.title, "")))
  {
    LookupFinds(InitialFields(d), 0);
  }

  lemma InitialType(d: InitialData)
    ensures Lookup(InitialFields(d), "type") == Some(Text(OrString(d.propertyType, "Apartment")))
  {
    LookupFinds(InitialFields(d), 4);
  }

  lemma InitialStatus(d: InitialData)
    ensures Lookup(InitialFields(d), "status") == Some(Text(OrString(d.status, "available")))
  {
    LookupFinds(InitialFields(d), 5);
  }

  lemma InitialGarden(d: InitialData)
    ensures Lookup(InitialFields(d), "hasGarden") == Some(Flag(d.hasGarden == Some(true)))
  {
    LookupFinds(InitialFields(d), 9);
  }

  lemma InitialBalcony(d: InitialData)
    ensures Lookup(InitialFields(d), "hasBalcony") == Some(Flag(d.hasBalcony == Some(true)))
  {
    LookupFinds(InitialFields(d), 10);
  }

  /** The form has the eleven fields, once each and in this order; type, status
      and the checkboxes fall back to Apartment, available and off. */
  lemma InitialFieldsDefaults(d: InitialData)
    ensures Names(InitialFields(d)) == FIELD_NAMES
    ensures Lookup(InitialFields(d), "title") == Some(Text(OrString(d.title, "")))
    ensures Lookup(InitialFields(d), "type") == Some(Text(OrString(d.propertyType, "Apartment")))
    ensures Lookup(InitialFields(d), "status") == Some(Text(OrString(d.status, "available")))
    ensures Lookup(InitialFields(d), "hasGarden") == Some(Flag(d.hasGarden == Some(true)))
    ensures Lookup(InitialFields(d), "hasBalcony") == Some(Flag(d.hasBalcony == Some(true)))
  {
    InitialFieldNames(d);
    InitialTitle(d);
    InitialType(d);
    InitialStatus(d);
    InitialGarden(d);
    InitialBalcony(d);
  }

  /** A new property's form: type Apartment, status available, both checkboxes
      off, and the title empty. */
  lemma NewPropertyDefaults()
    ensures var fd := InitialFields(NO_INITIAL_DATA);
            && Lookup(fd, "type") == Some(Text("Apartment"))
            && Lookup(fd, "status") == Some(Text("available"))
            && Lookup(fd, "hasGarden") == Some(Flag(false))
            && Lookup(fd, "hasBalcony") == Some(Flag(false))
            && Lookup(fd, "title") == Some(Text(""))
  {
    InitialFieldsDefaults(NO_INITIAL_DATA);
  }

  // ---- Images and previews ----------------------------------------------------

  /** A preview: a stored image's URL, or the blob URL made for a new file. */
  datatype Preview = Existing(url: string) | Blob(file: string)

  function Blobs(files: seq<string>): (ps: seq<Preview>)
    ensures |ps| == |files|
    ensures forall i :: 0 <= i < |files| ==> ps[i] == Blob(files[i])
  {
    if files == [] then [] else [Blob(files[0])] + Blobs(files[1..])
  }

  function Existings(urls: seq<string>): (ps: seq<Preview>)
    ensures |ps| == |urls|
    ensures forall i :: 0 <= i < |urls| ==> ps[i] == Existing(urls[i])
  {
    if urls == [] then [] else [Existing(urls[0])] + Existings(urls[1..])
  }

  /** `prev.filter((_, i) => i !== index)`: the element at `index` is dropped and
      the rest keep their order; an index outside the list drops nothing. */
  function RemoveAt<T>(s: seq<T>, index: int): (r: seq<T>)
    ensures 0 <= index < |s| ==> |r| == |s| - 1
    ensures 0 <= index < |s| ==> forall j :: 0 <= j < index ==> r[j] == s[j]
    ensures 0 <= index < |s| ==> forall j :: index <= j < |r| ==> r[j] == s[j + 1]
    ensures !(0 <= index < |s|) ==> r == s
  {
    if 0 <= index < |s| then s[..index] + s[index + 1..] else s
  }

  /** The two lists agree: the first `existing` previews are stored images, and
      the rest are exactly the blobs of the new files, in order. */
  predicate Synced(previews: seq<Preview>, images: seq<string>, existing: int)
  {
    && 0 <= existing <= |previews|
    && (forall j :: 0 <= j < existing ==> previews[j].Existing?)
    && previews[existing..] == Blobs(images)
  }

  /** In step, there is one preview per stored image plus one per new file. */
  lemma SyncedLengths(previews: seq<Preview>, images: seq<string>, existing: int)
    requires Synced(previews, images, existing)
    ensures |previews| == existing + |images|
  {
    assert |previews[existing..]| == |Blobs(images)|;
  }

  /** Adding files keeps the lists in step. */
  lemma {:induction false} AddingFilesKeepsSync(previews: seq<Preview>, images: seq<string>, existing: int, files: seq<string>)
    requires Synced(previews, images, existing)
    ensures Synced(previews + Blobs(files), images + files, existing)
  {
    var p := previews + Blobs(files);
    calc {
      p[existing..];
      previews[existing..] + Blobs(files);
      Blobs(images) + Blobs(files);
      { BlobsOfConcat(images, files); }
      Blobs(images + files);
    }
    assert p[..|previews|] == previews;
  }

  lemma {:induction false} BlobsOfConcat(a: seq<string>, b: seq<string>)
    ensures Blobs(a + b) == Blobs(a) + Blobs(b)
  {
    var l, r := Blobs(a + b), Blobs(a) + Blobs(b);
    assert |l| == |r|;
    forall i | 0 <= i < |l| ensures l[i] == r[i] {
      if i < |a| {
        assert r[i] == Blobs(a)[i];
      } else {
        assert r[i] == Blobs(b)[i - |a|];
      }
    }
  }

  /** `removeImage(index)` as written: the preview goes, and the new file at
      `index - initialCount` goes when `index` is at least the number of images
      the form started with. */
  function RemoveAsWritten(previews: seq<Preview>, images: seq<string>, initialCount: int, index: int)
    : (after: (seq<Preview>, seq<string>))
    ensures after.0 == RemoveAt(previews, index)
    ensures index < initialCount ==> after.1 == images
    ensures index >= initialCount ==> after.1 == RemoveAt(images, index - initialCount)
  {
    (RemoveAt(previews, index),
     if index >= initialCount then RemoveAt(images, index - initialCount) else images)
  }

  lemma RemoveAtBlobs(files: seq<string>, k: int)
    ensures RemoveAt(Blobs(files), k) == Blobs(RemoveAt(files, k))
  {
  }

  /** Removing a new image keeps the lists in step. */
  lemma RemovingNewImageKeepsSync(previews: seq<Preview>, images: seq<string>, initialCount: int, index: int)
    requires Synced(previews, images, initialCount)
    requires initialCount <= index < |previews|
    ensures var after := RemoveAsWritten(previews, images, initialCount, index);
            Synced(after.0, after.1, initialCount)
  {
    var after := RemoveAsWritten(previews, images, initialCount, index);
    assert after.0[initialCount..] == RemoveAt(previews[initialCount..], index - initialCount);
    RemoveAtBlobs(images, index - initialCount);
  }

  /** Removing a stored image leaves the new files alone, so the form now holds
      one stored image fewer than `initialCount` says: the lists are in step only
      for the smaller count. */
  lemma RemovingStoredImageDesyncs(previews: seq<Preview>, images: seq<string>, initialCount: int, index: int)
    requires Synced(previews, images, initialCount)
    requires 0 <= index < initialCount
    ensures var after := RemoveAsWritten(previews, images, initialCount, index);
            && after.1 == images
            && |after.0| + 1 == initialCount + |after.1|
            && !Synced(after.0, after.1, initialCount)
            && Synced(after.0, after.1, initialCount - 1)
  {
    var after := RemoveAsWritten(previews, images, initialCount, index);
    assert after.0[initialCount - 1..] == previews[initialCount..];
  }

  /** Editing a property with one stored image "a": add file "f", then press
      remove on the first preview twice.  The first press removes "a"; the
      second removes the preview of "f" but, the offset still being 1, not the
      file, so "f" is uploaded though no preview shows it.  The corrected
      removal drops both. */
  lemma StaleOffsetCounterexample()
    ensures var p1: seq<Preview>, i1: seq<string> := [Existing("a")] + Blobs(["f"]), ["f"];
            var s2 := RemoveAsWritten(p1, i1, 1, 0);
            var s3 := RemoveAsWritten(s2.0, s2.1, 1, 0);
            && Synced(p1, i1, 1)
            && s2 == ([Blob("f")], ["f"])
            && s3 == ([], ["f"])
            && RemoveImageTracked(s2.0, s2.1, 0) == ([], [])
  {
    var p1: seq<Preview> := [Existing("a")] + Blobs(["f"]);
    assert Blobs(["f"]) == [Blob("f")];
    assert p1 == [Existing("a"), Blob("f")];
    assert p1[1..] == Blobs(["f"]);
    var s2 := RemoveAsWritten(p1, ["f"], 1, 0);
    assert s2.0 == p1[..0] + p1[1..] == [Blob("f")];
    assert s2 == ([Blob("f")], ["f"]);
    var s3 := RemoveAsWritten(s2.0, s2.1, 1, 0);
    assert s3.0 == RemoveAt([Blob("f")], 0) == [];
    assert RemoveAt(["f"], 0) == [];
  }

  /** The corrected removal: the number of stored previews is read off the
      current lists (`previews.length - images.length`) instead of the initial
      data. */
  function RemoveImageTracked(previews: seq<Preview>, images: seq<string>, index: int)
    : (after: (seq<Preview>, seq<string>))
    ensures after.0 == RemoveAt(previews, index)
    ensures index < |previews| - |images| ==> after.1 == images
    ensures index >= |previews| - |images| ==> after.1 == RemoveAt(images, index - (|previews| - |images|))
  {
    var existing := |previews| - |images|;
    (RemoveAt(previews, index),
     if index >= existing then RemoveAt(images, index - existing) else images)
  }

  /** Every removal keeps the corrected lists in step: removing preview `index`
      removes its file exactly when it shows a new file. */
  lemma TrackedRemovalKeepsSync(previews: seq<Preview>, images: seq<string>, existing: int, index: int)
    requires Synced(previews, images, existing)
    requires 0 <= index < |previews|
    ensures var after := RemoveImageTracked(previews, images, index);
            Synced(after.0, after.1, if index < existing then existing - 1 else existing)
    ensures var after := RemoveImageTracked(previews, images, index);
            previews[index].Blob? <==> |after.1| == |images| - 1
  {
    assert |previews| - |images| == existing;
    if index < existing {
      RemovingStoredImageDesyncs(previews, images, existing, index);
    } else {
      RemovingNewImageKeepsSync(previews, images, existing, index);
      assert previews[index] == previews[existing..][index - existing];
    }
  }

  /** A form opened without stored images, as both routes open it, only ever
      removes new files: each removal is the corrected one and keeps the lists in
      step, so the stale offset cannot show there. */
  lemma NoStoredImagesRemovalsStayInStep(previews: seq<Preview>, images: seq<string>, index: int)
    requires Synced(previews, images, 0)
    ensures RemoveAsWritten(previews, images, 0, index) == RemoveImageTracked(previews, images, index)
    ensures var after := RemoveAsWritten(previews, images, 0, index);
            Synced(after.0, after.1, 0)
  {
    SyncedLengths(previews, images, 0);
    if 0 <= index < |previews| {
      RemovingNewImageKeepsSync(previews, images, 0, index);
    }
  }

  /** While no stored image has been removed, both removals do the same thing. */
  lemma RemovalsAgreeWhileSynced(previews: seq<Preview>, images: seq<string>, initialCount: int, index: int)
    requires Synced(previews, images, initialCount)
    ensures RemoveAsWritten(previews, images, initialCount, index) == RemoveImageTracked(previews, images, index)
  {
  }

  // ---- The submitted body -----------------------------------------------------

  datatype Entry = TextEntry(text: string) | FileEntry(file: string)

  /** How FormData stores a field value: text as is, a checkbox as "true"/"false". */
  function Stringify(v: FieldValue): string
  {
    match v
    case Text(t) => t
    case Flag(b) => if b then "true" else "false"
  }

  datatype SubmitRequest =
    | CreateRequest(body: seq<(string, Entry)>)
    | UpdateRequest(id: Option<int>, body: seq<(string, Entry)>)

  class Form {
    const initialCount: nat
    const isEdit: bool
    const propertyId: Option<int>
    var formData: Fields
    var images: seq<string>
    var previews: seq<Preview>

    /** The form's initial state: the fields from `InitialFields`, no new files,
        and one preview per stored image. */
    constructor (initial: InitialData, isEdit: bool)
      ensures formData == InitialFields(initial)
      ensures images == []
      ensures previews == Existings(if initial.images.Some? then initial.images.value else [])
      ensures initialCount == |previews|
      ensures Synced(previews, images, initialCount)
      ensures this.isEdit == isEdit && propertyId == initial.id
    {
      var stored := if initial.images.Some? then initial.images.value else [];
      initialCount := |stored|;
      this.isEdit := isEdit;
      propertyId := initial.id;
      formData := InitialFields(initial);
      images := [];
      previews := Existings(stored);
    }

    /** `handleChange`: only the named field changes, to `checked` for a checkbox
        and to `value` otherwise. */
    method HandleChange(name: string, value: string, checked: bool, isCheckbox: bool)
      modifies this`formData
      ensures formData == SetField(old(formData), name, if isCheckbox then Flag(checked) else Text(value))
      ensures Lookup(formData, name) == Some(if isCheckbox then Flag(checked) else Text(value))
      ensures forall other :: other != name ==> Lookup(formData, other) == Lookup(old(formData), other)
    {
      var v := if isCheckbox then Flag(checked) else Text(value);
      SetFieldSets(formData, name, v);
      SetFieldNames(formData, name, v);
      forall other | other != name
        ensures Lookup(SetField(formData, name, v), other) == Lookup(formData, other)
      {
        SetFieldKeepsOthers(formData, name, v, other);
      }
      formData := SetField(formData, name, v);
    }

    /** `handleFileChange`: the chosen files are appended to `images` and their
        blobs to `previews`; choosing no file changes nothing. */
    method HandleFileChange(files: seq<string>)
      modifies this`images, this`previews
      ensures images == old(images) + files
      ensures previews == old(previews) + Blobs(files)
      ensures Synced(old(previews), old(images), initialCount) ==> Synced(previews, images, initialCount)
    {
      if Synced(previews, images, initialCount) {
        AddingFilesKeepsSync(previews, images, initialCount, files);
      }
      if |files| > 0 {
        images := images + files;
        previews := previews + Blobs(files);
      }
    }

    /** `removeImage(index)`, with the offset fixed at the number of images the
        form started with. */
    method RemoveImage(index: int)
      modifies this`images, this`previews
      ensures (previews, images) == RemoveAsWritten(old(previews), old(images), initialCount, index)
    {
      previews := RemoveAt(previews, index);
      if index >= initialCount {
        var newIndex := index - initialCount;
        images := RemoveAt(images, newIndex);
      }
    }

    /** The multipart body: one text entry per field, in field order, then one
        'images' entry per new file, in order. */
    method BuildFormData() returns (entries: seq<(string, Entry)>)
      ensures |entries| == |formData| + |images|
      ensures forall i :: 0 <= i < |formData| ==>
                entries[i] == (formData[i].0, TextEntry(Stringify(formData[i].1)))
      ensures forall j :: 0 <= j < |images| ==> entries[|formData| + j] == ("images", FileEntry(images[j]))
    {
      entries := [];
      var i := 0;
      while i < |formData|
        invariant 0 <= i <= |formData| && |entries| == i
        invariant forall k :: 0 <= k < i ==> entries[k] == (formData[k].0, TextEntry(Stringify(formData[k].1)))
      {
        entries := entries + [(formData[i].0, TextEntry(Stringify(formData[i].1)))];
        i := i + 1;
      }
      var j := 0;
      while j < |images|
        invariant 0 <= j <= |images| && |entries| == |formData| + j
        invariant forall k :: 0 <= k < |formData| ==> entries[k] == (formData[k].0, TextEntry(Stringify(formData[k].1)))
        invariant forall k :: 0 <= k < j ==> entries[|formData| + k] == ("images", FileEntry(images[k]))
      {
        entries := entries + [("images", FileEntry(images[j]))];
        j := j + 1;
      }
    }

    /** `handleSubmit`: the body goes to the update of the property named by
        `initialData.id` when editing (to `undefined`, None here, when the form
        was given no id), and to creation otherwise. */
    method HandleSubmit() returns (request: SubmitRequest)
      ensures isEdit <==> request.UpdateRequest?
      ensures request.UpdateRequest? ==> request.id == propertyId
      ensures |request.body| == |formData| + |images|
      ensures forall i :: 0 <= i < |formData| ==>
                request.body[i] == (formData[i].0, TextEntry(Stringify(formData[i].1)))
      ensures forall j :: 0 <= j < |images| ==> request.body[|formData| + j] == ("images", FileEntry(images[j]))
    {
      var body := BuildFormData();
      if isEdit {
        request := UpdateRequest(propertyId, body);
      } else {
        request := CreateRequest(body);
      }
    }
  }
}
