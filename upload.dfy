/** The upload page (app/upload/page.tsx): the tag picker that never lets
    the tag list run empty, the `.webp` rename of the uploaded file, the
    guards and steps of the upload handler and the photo row it inserts. */
module Upload {
  import opened Optional
  import opened Text
  import Elo

  type Tag = string

  /** The tag every upload starts with. */
  const DefaultTag: Tag := "\U{7D9C}\U{5408}"

  // ---------------------------------------------------------------------
  // Tag selection.

  /** `tags.filter(t => t !== tag)`. */
  function Without(tags: seq<Tag>, tag: Tag): (r: seq<Tag>)
    ensures |r| <= |tags|
    ensures forall x :: x in r <==> x in tags && x != tag
    ensures tag in tags ==> |r| < |tags|
    ensures NoDuplicates(tags) ==> NoDuplicates(r)
  {
    if tags == [] then []
    else
      var rest := Without(tags[1..], tag);
      assert forall x :: x in tags <==> x == tags[0] || x in tags[1..];
      if tags[0] == tag then rest
      else
        assert NoDuplicates(tags) ==> tags[0] !in tags[1..];
        [tags[0]] + rest
  }

  /** The filter keeps the remaining tags in their order, so the first
      remaining tag, the stored category, is the first tag not removed. */
  lemma {:induction false} WithoutKeepsOrder(tags: seq<Tag>, tag: Tag)
    ensures IsSubsequence(Without(tags, tag), tags)
  {
    if tags != [] {
      var rest := Without(tags[1..], tag);
      WithoutKeepsOrder(tags[1..], tag);
      if tags[0] == tag {
        assert rest != [] ==> rest[0] in rest;
      } else {
        assert ([tags[0]] + rest)[1..] == rest;
      }
    }
  }

  /** A list without `tag` loses nothing to the filter. */
  lemma {:induction false} WithoutAbsent(tags: seq<Tag>, tag: Tag)
    requires tag !in tags
    ensures Without(tags, tag) == tags
  {
    if tags != [] {
      WithoutAbsent(tags[1..], tag);
      assert [tags[0]] + tags[1..] == tags;
    }
  }

  lemma {:induction false} WithoutAppend(a: seq<Tag>, b: seq<Tag>, tag: Tag)
    ensures Without(a + b, tag) == Without(a, tag) + Without(b, tag)
  {
    if a == [] {
      assert a + b == b;
    } else {
      assert (a + b)[0] == a[0];
      assert (a + b)[1..] == a[1..] + b;
      WithoutAppend(a[1..], b, tag);
    }
  }

  /** In a duplicate-free list the filter removes exactly one copy of a present tag. */
  lemma {:induction false} WithoutMultiset(tags: seq<Tag>, tag: Tag)
    requires NoDuplicates(tags)
    ensures multiset(Without(tags, tag)) + (if tag in tags then multiset{tag} else multiset{})
            == multiset(tags)
  {
    if tags != [] {
      assert NoDuplicates(tags[1..]);
      WithoutMultiset(tags[1..], tag);
      assert tags == [tags[0]] + tags[1..];
      assert tags[0] == tag ==> tag !in tags[1..];
    }
  }

  /** `toggleTag(tag)`: remove a selected tag unless it is the only one,
      add an unselected one at the end. */
  function ToggleTag(tags: seq<Tag>, tag: Tag): (r: seq<Tag>)
    ensures tag !in tags ==> r == tags + [tag]
    ensures tag in tags ==> (tag in r <==> |tags| == 1)
    ensures forall x :: x != tag ==> (x in r <==> x in tags)
  {
    if tag in tags then
      if |tags| > 1 then Without(tags, tag) else tags
    else tags + [tag]
  }

  /** Toggling keeps a duplicate-free list duplicate-free. */
  lemma ToggleKeepsNoDuplicates(tags: seq<Tag>, tag: Tag)
    requires NoDuplicates(tags)
    ensures NoDuplicates(ToggleTag(tags, tag))
  {
  }

  /** A duplicate-free list never loses its last tag: unselecting the only
      tag does nothing. */
  lemma ToggleKeepsNonEmpty(tags: seq<Tag>, tag: Tag)
    requires NoDuplicates(tags) && |tags| > 0
    ensures |ToggleTag(tags, tag)| > 0
    ensures tags == [tag] ==> ToggleTag(tags, tag) == tags
  {
    if tag in tags && |tags| > 1 {
      var other := if tags[0] == tag then tags[1] else tags[0];
      assert other in tags && other != tag;
      assert other in Without(tags, tag);
    }
  }

  /** Without the duplicate-free invariant the guard is not enough: the
      filter removes every copy. */
  lemma ToggleEmptiesDuplicates()
    ensures ToggleTag(["b", "b"], "b") == []
  {
    assert "b" in ["b", "b"];
  }

  /** Apart from the single-tag case, toggling flips exactly the toggled tag
      and keeps every other tag's selection. */
  lemma ToggleFlips(tags: seq<Tag>, tag: Tag)
    requires NoDuplicates(tags) && tags != [tag]
    ensures tag in ToggleTag(tags, tag) <==> tag !in tags
    ensures forall x :: x != tag ==> (x in ToggleTag(tags, tag) <==> x in tags)
  {
  }

  /** Selecting a new tag and unselecting it again restores the list. */
  lemma ToggleRoundTrip(tags: seq<Tag>, tag: Tag)
    requires tag !in tags && |tags| > 0
    ensures ToggleTag(ToggleTag(tags, tag), tag) == tags
  {
    assert tag in tags + [tag];
    WithoutAppend(tags, [tag], tag);
    WithoutAbsent(tags, tag);
    assert Without([tag], tag) == [];
  }

  /** Unselecting a tag and selecting it again keeps the same tags, with the
      toggled one moved to the end. */
  lemma ToggleRoundTripPresent(tags: seq<Tag>, tag: Tag)
    requires NoDuplicates(tags) && tag in tags && |tags| > 1
    ensures ToggleTag(ToggleTag(tags, tag), tag) == Without(tags, tag) + [tag]
    ensures multiset(ToggleTag(ToggleTag(tags, tag), tag)) == multiset(tags)
  {
    WithoutMultiset(tags, tag);
  }

  // ---------------------------------------------------------------------
  // The upload file name: `name.replace(/\.[^/.]+$/, "") + ".webp"`.

  /** A suffix the pattern `\.[^/.]+$` matches: a dot, then one or more
      characters that are neither a dot nor a slash. */
  predicate IsExtension(x: string) {
    |x| >= 2 && x[0] == '.' && forall k :: 1 <= k < |x| ==> x[k] != '.' && x[k] != '/'
  }

  /** A suffix the pattern matches can only start at the last dot. */
  lemma ExtensionAtLastDot(name: string, i: nat)
    requires i <= |name| && IsExtension(name[i..])
    ensures LastDot(name) == Some(i)
  {
    assert name[i] == name[i..][0];
    assert forall k :: i < k < |name| ==> name[k] == name[i..][k - i];
    LastDotAt(name, i);
  }

  /** `name` with the matched extension removed. */
  function StripExtension(name: string): (r: string)
    ensures |r| <= |name| && name[..|r|] == r
    ensures r != name ==> IsExtension(name[|r|..])
    ensures r == name ==> forall i :: 0 <= i <= |name| ==> !IsExtension(name[i..])
  {
    var dot := LastDot(name);
    if dot.Some? && IsExtension(name[dot.value..]) then name[..dot.value]
    else
      assert forall i :: 0 <= i <= |name| ==> !IsExtension(name[i..]) by {
        forall i | 0 <= i <= |name|
          ensures !IsExtension(name[i..])
        {
          if IsExtension(name[i..]) {
            ExtensionAtLastDot(name, i);
          }
        }
      }
      name
  }

  /** The name the compressed file is uploaded under. */
  function UploadFileName(name: string): (r: string)
    ensures EndsWith(r, ".webp")
  {
    StripExtension(name) + ".webp"
  }

  /** The rename strips exactly the `.webp` it adds. */
  lemma StripWebp(stem: string)
    ensures StripExtension(stem + ".webp") == stem
  {
    var s := stem + ".webp";
    assert s[|stem|] == '.';
    assert s[|stem|..] == ".webp";
    var dot := LastDot(s);
    assert dot.value == |stem|;
  }

  /** Renaming a renamed file changes nothing. */
  lemma UploadFileNameIdempotent(name: string)
    ensures UploadFileName(UploadFileName(name)) == UploadFileName(name)
  {
    StripWebp(StripExtension(name));
  }

  // ---------------------------------------------------------------------
  // The page.

  datatype UserInfo = UserInfo(id: string, email: string)

  /** The chosen file's name. */
  datatype FileInfo = FileInfo(name: string)

  /** The row inserted into the photo table. */
  datatype PhotoRow = PhotoRow(userId: string, url: string, score: int, category: Tag, tags: seq<Tag>)

  /** The row `handleUpload` inserts: the default score, the selected
      tags, and the first of them as the legacy category. */
  function NewPhotoRow(userId: string, url: string, tags: seq<Tag>): (row: PhotoRow)
    requires |tags| > 0
    ensures row.userId == userId && row.url == url && row.tags == tags
    ensures row.score == 1000 && row.category == tags[0]
    ensures NoDuplicates(tags) ==> WellFormedRow(row)
  {
    PhotoRow(userId, url, Elo.DefaultScore, tags[0], tags)
  }

  /** `${user.id}/${stamp}.webp`, with `stamp` the time-and-random file stem. */
  function StoragePath(userId: string, stamp: string): (path: string)
    ensures StartsWith(path, userId + "/")
    ensures EndsWith(path, ".webp")
  {
    var dir := userId + "/";
    assert dir[..|dir|] == dir;
    StartsWithAppend(dir, dir, stamp);
    StartsWithAppend(dir + stamp, dir, ".webp");
    dir + stamp + ".webp"
  }

  /** The energy `add_energy` grants for an upload. */
  const UploadBonus: int := 5

  const LoginRequiredMessage: string := "Error: You must be logged in to upload."
  const CompressingMessage: string := "Compressing image..."
  const SuccessMessage: string := "Upload successful! +5 Energy Bonus Granted! Redirecting..."

  /** `Error: ${err.message || 'Upload failed'}`. */
  function ErrorMessage(message: string): (m: string)
    ensures StartsWith(m, "Error: ")
    ensures message != [] ==> m[7..] == message
    ensures message == [] ==> m == "Error: Upload failed"
  {
    "Error: " + (if message == [] then "Upload failed" else message)
  }

  /** A well-formed photo row: the default score, a non-empty duplicate-free
      tag list and the first tag as its category. */
  ghost predicate WellFormedRow(row: PhotoRow) {
    row.score == Elo.DefaultScore && |row.tags| > 0 && NoDuplicates(row.tags)
    && row.category == row.tags[0]
  }

  class UploadPage {
    var file: Option<FileInfo>
    var user: Option<UserInfo>
    var uploading: bool
    var message: string
    var tags: seq<Tag>
    /** The objects written to storage: path and uploaded file name. */
    var uploads: seq<(string, string)>
    /** The user records inserted by the self-healing step. */
    var userInserts: seq<UserInfo>
    /** The rows inserted into the photo table. */
    var photoRows: seq<PhotoRow>
    /** The amounts passed to `add_energy`. */
    var energyGrants: seq<int>
    /** The page the success timer will open. */
    var redirect: Option<string>

    /** The tag list is never empty and never repeats a tag, and every
        inserted row is well formed. */
    ghost predicate Valid()
      reads this`tags, this`photoRows
    {
      |tags| > 0 && NoDuplicates(tags)
      && forall i :: 0 <= i < |photoRows| ==> WellFormedRow(photoRows[i])
    }

    constructor (user: Option<UserInfo>)
      ensures Valid() && this.user == user && tags == [DefaultTag]
      ensures file.None? && !uploading && message == [] && redirect.None?
      ensures uploads == [] && userInserts == [] && photoRows == [] && energyGrants == []
    {
      this.user := user;
      file, uploading, message, tags := None, false, [], [DefaultTag];
      uploads, userInserts, photoRows, energyGrants, redirect := [], [], [], [], None;
    }

    /** A tag button. */
    method ToggleTagButton(tag: Tag)
      requires Valid()
      modifies this`tags
      ensures Valid() && tags == ToggleTag(old(tags), tag)
    {
      ToggleKeepsNoDuplicates(tags, tag);
      ToggleKeepsNonEmpty(tags, tag);
      tags := ToggleTag(tags, tag);
    }

    /** `handleFileChange` with a chosen file. */
    method ChooseFile(f: FileInfo)
      modifies this`file, this`message
      ensures file == Some(f) && message == []
    {
      file := Some(f);
      message := [];
    }

    /** `handleUpload`. The storage and database answers are parameters:
        `uploadError` and `dbError` carry an error's message, `userRowFound`
        says whether the user record exists. */
    method HandleUpload(stamp: string, uploadError: Option<string>, publicUrl: string,
                        userRowFound: bool, dbError: Option<string>)
      requires Valid()
      modifies this`uploading, this`message, this`uploads, this`userInserts,
               this`photoRows, this`energyGrants, this`redirect
      ensures Valid()
      ensures file.None? ==>
                uploading == old(uploading) && message == old(message) && uploads == old(uploads)
                && userInserts == old(userInserts) && photoRows == old(photoRows)
                && energyGrants == old(energyGrants) && redirect == old(redirect)
      ensures file.Some? && user.None? ==>
                message == LoginRequiredMessage
                && uploading == old(uploading) && uploads == old(uploads)
                && userInserts == old(userInserts) && photoRows == old(photoRows)
                && energyGrants == old(energyGrants) && redirect == old(redirect)
      ensures file.Some? && user.Some? ==>
                var stored := uploadError.None?;
                var saved := stored && dbError.None?;
                && !uploading
                && uploads == old(uploads)
                     + (if stored then [(old(StoragePath(user.value.id, stamp)), old(UploadFileName(file.value.name)))] else [])
                && userInserts == old(userInserts) + (if stored && !userRowFound then [user.value] else [])
                && photoRows == old(photoRows) + (if saved then [old(NewPhotoRow(user.value.id, publicUrl, tags))] else [])
                && energyGrants == old(energyGrants) + (if saved then [UploadBonus] else [])
                && redirect == (if saved then Some("/gallery") else old(redirect))
                && message == (if uploadError.Some? then ErrorMessage(uploadError.value)
                               else if dbError.Some? then ErrorMessage(dbError.value)
                               else SuccessMessage)
    {
      if file.None? {
        return;
      }
      if user.None? {
        message := LoginRequiredMessage;
        return;
      }
      uploading := true;
      message := [];
      message := CompressingMessage;
      StoreAndInsert(StoragePath(user.value.id, stamp), UploadFileName(file.value.name), uploadError,
                     publicUrl, userRowFound, dbError);
    }

    /** Steps 2 to 5 of `handleUpload`, after the guards: the storage upload
        of the compressed file under `path` and `fileName`, the self-healing
        user insert, the photo row and the bonus; `uploading` ends false. */
    method StoreAndInsert(path: string, fileName: string, uploadError: Option<string>, publicUrl: string,
                          userRowFound: bool, dbError: Option<string>)
      requires Valid() && user.Some?
      modifies this`uploading, this`message, this`uploads, this`userInserts,
               this`photoRows, this`energyGrants, this`redirect
      ensures Valid()
      ensures var stored := uploadError.None?;
              var saved := stored && dbError.None?;
              && !uploading
              && uploads == old(uploads) + (if stored then [(path, fileName)] else [])
              && userInserts == old(userInserts) + (if stored && !userRowFound then [user.value] else [])
              && photoRows == old(photoRows) + (if saved then [old(NewPhotoRow(user.value.id, publicUrl, tags))] else [])
              && energyGrants == old(energyGrants) + (if saved then [UploadBonus] else [])
              && redirect == (if saved then Some("/gallery") else old(redirect))
              && message == (if uploadError.Some? then ErrorMessage(uploadError.value)
                             else if dbError.Some? then ErrorMessage(dbError.value)
                             else SuccessMessage)
    {
      if uploadError.Some? {
        message := ErrorMessage(uploadError.value);
        uploading := false;
        return;
      }
      uploads := uploads + [(path, fileName)];
      if !userRowFound {
        userInserts := userInserts + [user.value];
      }
      InsertPhoto(publicUrl, dbError);
      uploading := false;
    }

    /** Steps 4 and 5 of `handleUpload`: the photo row, then the bonus. */
    method InsertPhoto(publicUrl: string, dbError: Option<string>)
      requires Valid() && user.Some?
      modifies this`message, this`photoRows, this`energyGrants, this`redirect
      ensures Valid()
      ensures photoRows == old(photoRows) + (if dbError.None? then [old(NewPhotoRow(user.value.id, publicUrl, tags))] else [])
      ensures energyGrants == old(energyGrants) + (if dbError.None? then [UploadBonus] else [])
      ensures redirect == (if dbError.None? then Some("/gallery") else old(redirect))
      ensures message == (if dbError.Some? then ErrorMessage(dbError.value) else SuccessMessage)
    {
      if dbError.Some? {
        message := ErrorMessage(dbError.value);
        return;
      }
      var row := NewPhotoRow(user.value.id, publicUrl, tags);
      assert WellFormedRow(row);
      photoRows := photoRows + [row];
      energyGrants := energyGrants + [UploadBonus];
      message := SuccessMessage;
      redirect := Some("/gallery");
    }
  }
}
