/** The profile editor (app/profile/edit/page.tsx): the username input
    sanitiser, the ordered validation chain of the submit handler, the
    trimmed fields it saves, the avatar/banner file checks and the storage
    path an uploaded image is written to. */
module ProfileEdit {
  import opened Optional
  import opened Text

  // ---------------------------------------------------------------------
  // Username sanitiser: `value.toLowerCase().replace(/[^a-z0-9_]/g, "")`.

  /** A character the sanitiser keeps. */
  predicate UsernameChar(c: char) {
    'a' <= c <= 'z' || '0' <= c <= '9' || c == '_'
  }

  /** A character of the class `[a-zA-Z0-9_]` the submit handler accepts. */
  predicate PatternChar(c: char) {
    'a' <= c <= 'z' || 'A' <= c <= 'Z' || '0' <= c <= '9' || c == '_'
  }

  /** `/^[a-zA-Z0-9_]+$/.test(s)`. */
  predicate MatchesUsernamePattern(s: string) {
    |s| >= 1 && forall k :: 0 <= k < |s| ==> PatternChar(s[k])
  }

  /** `s.replace(/[^a-z0-9_]/g, "")`: the characters of `s` the class keeps, in order. */
  function KeepUsernameChars(s: string): (r: string)
    ensures |r| <= |s|
    ensures forall k :: 0 <= k < |r| ==> UsernameChar(r[k])
    ensures forall k :: 0 <= k < |s| && UsernameChar(s[k]) ==> s[k] in r
    ensures forall c :: UsernameChar(c) ==> multiset(r)[c] == multiset(s)[c]
    ensures IsSubsequence(r, s)
  {
    if s == [] then []
    else
      var rest := KeepUsernameChars(s[1..]);
      assert s == [s[0]] + s[1..];
      if UsernameChar(s[0]) then
        var r := [s[0]] + rest;
        assert r[1..] == rest;
        r
      else
        assert rest != [] ==> rest[0] != s[0];
        rest
  }

  /** What the username input stores for a typed value. */
  function SanitiseUsername(raw: string): (r: string)
    ensures |r| <= |raw|
    ensures forall k :: 0 <= k < |r| ==> UsernameChar(r[k])
    ensures IsSubsequence(r, LowerAscii(raw))
  {
    KeepUsernameChars(LowerAscii(raw))
  }

  /** Removing nothing: a string of kept characters passes through unchanged. */
  lemma {:induction false} KeepAllowed(s: string)
    requires forall k :: 0 <= k < |s| ==> UsernameChar(s[k])
    ensures KeepUsernameChars(s) == s
  {
    if s != [] {
      KeepAllowed(s[1..]);
      assert [s[0]] + s[1..] == s;
    }
  }

  /** Sanitising the sanitised value changes nothing. */
  lemma SanitiseIdempotent(raw: string)
    ensures SanitiseUsername(SanitiseUsername(raw)) == SanitiseUsername(raw)
  {
    var t := SanitiseUsername(raw);
    assert LowerAscii(t) == t;
    KeepAllowed(t);
  }

  // ---------------------------------------------------------------------
  // The validation chain of `handleSubmit`.

  datatype ValidationError =
    | UsernameRequired
    | DisplayNameRequired
    | UsernameTooShort
    | UsernameInvalid

  /** The text shown for a broken rule: a different one for each rule. */
  function ValidationMessage(e: ValidationError): (m: string)
    ensures m != []
  {
    match e
    case UsernameRequired => "Username is required"
    case DisplayNameRequired => "Display name is required"
    case UsernameTooShort => "Username must be at least 3 characters"
    case UsernameInvalid => "Username can only contain letters, numbers, and underscores"
  }

  /** No two rules share a message, so the text tells which rule was broken. */
  lemma ValidationMessagesDistinct(e1: ValidationError, e2: ValidationError)
    requires e1 != e2
    ensures ValidationMessage(e1) != ValidationMessage(e2)
  {
  }

  /** The first rule the form breaks, or `None` when it may be saved. The
      length and pattern rules look at the username as typed, untrimmed. */
  function Validate(username: string, displayName: string): (r: Option<ValidationError>)
    ensures r.None? <==> !AllWhitespace(displayName) && |username| >= 3 && MatchesUsernamePattern(username)
  {
    TrimEmptyIffBlank(username);
    TrimEmptyIffBlank(displayName);
    if Trim(username) == [] then Some(UsernameRequired)
    else if Trim(displayName) == [] then Some(DisplayNameRequired)
    else if |username| < 3 then Some(UsernameTooShort)
    else if !MatchesUsernamePattern(username) then Some(UsernameInvalid)
    else None
  }

  /** Each message is reported exactly when its rule is the first one broken:
      a blank username, then a blank display name, then a username shorter
      than three characters, then one outside the pattern. */
  lemma ValidationOrder(username: string, displayName: string)
    ensures var r := Validate(username, displayName);
            && (r == Some(UsernameRequired) <==> AllWhitespace(username))
            && (r == Some(DisplayNameRequired) <==> !AllWhitespace(username) && AllWhitespace(displayName))
            && (r == Some(UsernameTooShort) <==>
                  !AllWhitespace(username) && !AllWhitespace(displayName) && |username| < 3)
            && (r == Some(UsernameInvalid) <==>
                  !AllWhitespace(username) && !AllWhitespace(displayName) && |username| >= 3
                  && !MatchesUsernamePattern(username))
  {
    TrimEmptyIffBlank(username);
    TrimEmptyIffBlank(displayName);
  }

  /** A username the form accepts has at least three characters, only
      letters, digits and underscores, and nothing for `trim` to remove. */
  lemma AcceptedUsername(username: string, displayName: string)
    requires Validate(username, displayName).None?
    ensures |username| >= 3
    ensures forall k :: 0 <= k < |username| ==> PatternChar(username[k])
    ensures Trim(username) == username
  {
    TrimNoWhitespace(username);
  }

  /** Whatever the user types, a sanitised username of three or more
      characters passes every username rule. */
  lemma SanitisedUsernameAccepted(raw: string, displayName: string)
    requires |SanitiseUsername(raw)| >= 3 && !AllWhitespace(displayName)
    ensures Validate(SanitiseUsername(raw), displayName).None?
  {
  }

  // ---------------------------------------------------------------------
  // The saved row.

  /** The fields the submit handler writes to the profile row. */
  datatype ProfileUpdate = ProfileUpdate(
    username: string,
    displayName: string,
    bio: Option<string>,
    avatarUrl: Option<string>,
    bannerUrl: Option<string>)

  /** `bio.trim() || null`. */
  function SavedBio(bio: string): (r: Option<string>)
    ensures r.None? <==> AllWhitespace(bio)
    ensures r.Some? ==> r.value != [] && Trimmed(r.value)
  {
    TrimEmptyIffBlank(bio);
    if Trim(bio) == [] then None else Some(Trim(bio))
  }

  /** The row the submit handler saves: username and display name trimmed,
      the bio trimmed or null, the image URLs as they are. */
  function SavedProfile(username: string, displayName: string, bio: string,
                        avatarUrl: Option<string>, bannerUrl: Option<string>): (r: ProfileUpdate)
    ensures Trimmed(r.username) && Trimmed(r.displayName)
    ensures |r.username| <= |username| && |r.displayName| <= |displayName|
    ensures r.bio == SavedBio(bio)
    ensures r.avatarUrl == avatarUrl && r.bannerUrl == bannerUrl
  {
    ProfileUpdate(Trim(username), Trim(displayName), SavedBio(bio), avatarUrl, bannerUrl)
  }

  /** What a saved row promises: a username the form accepts, a non-blank
      display name and bio, and no surrounding whitespace on any of them. */
  ghost predicate WellFormedUpdate(p: ProfileUpdate) {
    && |p.username| >= 3 && MatchesUsernamePattern(p.username)
    && p.displayName != [] && Trimmed(p.displayName)
    && (p.bio.Some? ==> p.bio.value != [] && Trimmed(p.bio.value))
  }

  /** An accepted form saves the username exactly as typed and a row that is well formed. */
  lemma SavedProfileWellFormed(username: string, displayName: string, bio: string,
                               avatarUrl: Option<string>, bannerUrl: Option<string>)
    requires Validate(username, displayName).None?
    ensures SavedProfile(username, displayName, bio, avatarUrl, bannerUrl).username == username
    ensures WellFormedUpdate(SavedProfile(username, displayName, bio, avatarUrl, bannerUrl))
  {
    AcceptedUsername(username, displayName);
    TrimEmptyIffBlank(displayName);
  }

  lemma AppendWellFormed(us: seq<ProfileUpdate>, p: ProfileUpdate)
    requires forall i :: 0 <= i < |us| ==> WellFormedUpdate(us[i])
    requires WellFormedUpdate(p)
    ensures forall i :: 0 <= i < |us + [p]| ==> WellFormedUpdate((us + [p])[i])
  {
  }

  /** The error the update query reports. */
  datatype DbError = DbError(code: string, message: string)

  /** The text shown when the update fails: a unique-key violation is a
      taken username; otherwise the database's message, or a fallback. */
  function SaveErrorMessage(e: DbError): (m: string)
    ensures m != []
    ensures e.code == "23505" ==> m == "Username already taken"
    ensures e.code != "23505" && e.message != [] ==> m == e.message
    ensures e.code != "23505" && e.message == [] ==> m == "Failed to update profile"
  {
    if e.code == "23505" then "Username already taken"
    else if e.message == [] then "Failed to update profile"
    else e.message
  }

  // ---------------------------------------------------------------------
  // Image files.

  datatype ImageKind = Avatar | Banner

  /** The file the input hands over: its name, MIME type and size in bytes. */
  datatype ImageFile = ImageFile(name: string, mimeType: string, size: nat)

  const AvatarLimit: nat := 5 * 1024 * 1024
  const BannerLimit: nat := 10 * 1024 * 1024

  function SizeLimit(kind: ImageKind): nat {
    if kind == Avatar then AvatarLimit else BannerLimit
  }

  function Folder(kind: ImageKind): string {
    if kind == Avatar then "avatars" else "banners"
  }

  function TooLargeMessage(kind: ImageKind): string {
    if kind == Avatar then "Image must be less than 5MB" else "Image must be less than 10MB"
  }

  function UploadFailedMessage(kind: ImageKind): string {
    if kind == Avatar then "Failed to upload avatar" else "Failed to upload banner"
  }

  const NotAnImageMessage: string := "Please upload an image file"

  /** The checks before an upload starts: the message of the first one the
      file fails, or `None`. The type check comes first. */
  function ImageCheck(kind: ImageKind, file: ImageFile): (r: Option<string>)
    ensures r.None? <==> StartsWith(file.mimeType, "image/") && file.size <= SizeLimit(kind)
    ensures !StartsWith(file.mimeType, "image/") ==> r == Some(NotAnImageMessage)
    ensures StartsWith(file.mimeType, "image/") && file.size > SizeLimit(kind) ==>
              r == Some(TooLargeMessage(kind))
  {
    if !StartsWith(file.mimeType, "image/") then Some(NotAnImageMessage)
    else if file.size > SizeLimit(kind) then Some(TooLargeMessage(kind))
    else None
  }

  /** The limits are inclusive: a file of exactly the limit is accepted, one byte more is not. */
  lemma ImageLimitsInclusive(name: string, mimeType: string)
    requires StartsWith(mimeType, "image/")
    ensures ImageCheck(Avatar, ImageFile(name, mimeType, 5242880)).None?
    ensures ImageCheck(Avatar, ImageFile(name, mimeType, 5242881)) == Some("Image must be less than 5MB")
    ensures ImageCheck(Banner, ImageFile(name, mimeType, 10485760)).None?
    ensures ImageCheck(Banner, ImageFile(name, mimeType, 10485761)) == Some("Image must be less than 10MB")
  {
  }

  /** `name.split(".").pop()`: the text after the last dot, or the whole
      name when it has none. */
  function FileExtension(name: string): (ext: string)
    ensures '.' !in ext
    ensures EndsWith(name, ext)
    ensures ext == name || name[|name| - |ext| - 1] == '.'
  {
    var dot := LastDot(name);
    if dot.None? then name
    else
      var ext := name[dot.value + 1..];
      assert forall j :: 0 <= j < |ext| ==> ext[j] == name[dot.value + 1 + j];
      ext
  }

  /** Whatever precedes a dot does not affect the extension after it. */
  lemma ExtensionAfterDot(prefix: string, ext: string)
    requires '.' !in ext
    ensures FileExtension(prefix + "." + ext) == ext
  {
    var s := prefix + "." + ext;
    assert s[|prefix|] == '.';
    assert forall k :: |prefix| < k < |s| ==> s[k] == ext[k - |prefix| - 1];
    LastDotAt(s, |prefix|);
    assert s[|prefix| + 1..] == ext;
  }

  /** `${userId}/${folder}/${userId}-${timestamp}.${ext}`: the object sits
      in the user's folder for its kind. */
  function StoragePath(userId: string, kind: ImageKind, fileName: string, timestamp: nat): (path: string)
    ensures StartsWith(path, userId + "/" + Folder(kind) + "/")
  {
    var dir := userId + "/" + Folder(kind) + "/";
    assert dir[..|dir|] == dir;
    StartsWithAppend(dir, dir, userId);
    StartsWithAppend(dir + userId, dir, "-");
    StartsWithAppend(dir + userId + "-", dir, NatToString(timestamp));
    StartsWithAppend(dir + userId + "-" + NatToString(timestamp), dir, ".");
    StartsWithAppend(dir + userId + "-" + NatToString(timestamp) + ".", dir, FileExtension(fileName));
    dir + userId + "-" + NatToString(timestamp) + "." + FileExtension(fileName)
  }

  /** The stored object keeps the uploaded file's extension. */
  lemma StoragePathKeepsExtension(userId: string, kind: ImageKind, fileName: string, timestamp: nat)
    ensures FileExtension(StoragePath(userId, kind, fileName, timestamp)) == FileExtension(fileName)
  {
    ExtensionAfterDot(userId + "/" + Folder(kind) + "/" + userId + "-" + NatToString(timestamp),
                      FileExtension(fileName));
  }

  // ---------------------------------------------------------------------
  // The page.

  /** The profile row as fetched; absent columns are `None`. */
  datatype ProfileRow = ProfileRow(
    username: Option<string>,
    displayName: Option<string>,
    bio: Option<string>,
    avatarUrl: Option<string>,
    bannerUrl: Option<string>)

  /** `value || ""`. */
  function OrEmpty(value: Option<string>): (s: string)
    ensures value.Some? ==> s == value.value
    ensures value.None? ==> s == []
  {
    if value.Some? then value.value else []
  }

  class ProfileEditor {
    /** The signed-in user's id; `None` before sign-in. */
    var user: Option<string>
    var loading: bool
    var saving: bool
    var error: Option<string>
    var success: bool
    var username: string
    var displayName: string
    var bio: string
    var avatarUrl: Option<string>
    var bannerUrl: Option<string>
    var uploadingAvatar: bool
    var uploadingBanner: bool
    /** The update rows sent to the profile table, in order. */
    var updates: seq<ProfileUpdate>
    /** The storage paths written, in order. */
    var stored: seq<string>
    /** The page the success timer will open. */
    var redirect: Option<string>

    /** Every row the page has saved is well formed. */
    ghost predicate Valid()
      reads this
    {
      forall i :: 0 <= i < |updates| ==> WellFormedUpdate(updates[i])
    }

    constructor (user: Option<string>)
      ensures Valid() && this.user == user && loading && !saving && !success
      ensures error.None? && redirect.None? && updates == [] && stored == []
      ensures username == [] && displayName == [] && bio == []
      ensures avatarUrl.None? && bannerUrl.None? && !uploadingAvatar && !uploadingBanner
    {
      this.user := user;
      loading, saving, error, success := true, false, None, false;
      username, displayName, bio, avatarUrl, bannerUrl := [], [], [], None, None;
      uploadingAvatar, uploadingBanner := false, false;
      updates, stored, redirect := [], [], None;
    }

    /** `fetchProfile`: fills the form from the row, or reports the failure. */
    method LoadProfile(row: Option<ProfileRow>)
      modifies this`username, this`displayName, this`bio, this`avatarUrl, this`bannerUrl,
               this`error, this`loading
      ensures !loading
      ensures row.None? ==> error == Some("Failed to load profile")
                            && username == old(username) && displayName == old(displayName)
                            && bio == old(bio) && avatarUrl == old(avatarUrl) && bannerUrl == old(bannerUrl)
      ensures row.Some? ==> error == old(error)
                            && username == OrEmpty(row.value.username)
                            && displayName == OrEmpty(row.value.displayName)
                            && bio == OrEmpty(row.value.bio)
                            && avatarUrl == row.value.avatarUrl && bannerUrl == row.value.bannerUrl
    {
      if row.None? {
        error := Some("Failed to load profile");
      } else {
        username := OrEmpty(row.value.username);
        displayName := OrEmpty(row.value.displayName);
        bio := OrEmpty(row.value.bio);
        avatarUrl := row.value.avatarUrl;
        bannerUrl := row.value.bannerUrl;
      }
      loading := false;
    }

    /** The username input's change handler. */
    method SetUsernameInput(raw: string)
      modifies this`username
      ensures username == SanitiseUsername(raw)
    {
      username := SanitiseUsername(raw);
    }

    /** `handleSubmit`: validates the form, then saves it; `dbError` is the
        update query's outcome. */
    method HandleSubmit(dbError: Option<DbError>)
      requires Valid()
      modifies this`saving, this`error, this`success, this`updates, this`redirect
      ensures Valid()
      ensures user.None? ==> saving == old(saving) && error == old(error) && success == old(success)
                             && updates == old(updates) && redirect == old(redirect)
      ensures user.Some? && old(Validate(username, displayName)).Some? ==>
                saving == old(saving)
                && error == Some(ValidationMessage(old(Validate(username, displayName)).value))
                && success == old(success) && updates == old(updates) && redirect == old(redirect)
      ensures user.Some? && old(Validate(username, displayName)).None? ==>
                !saving
                && updates == old(updates) + [old(SavedProfile(username, displayName, bio, avatarUrl, bannerUrl))]
                && (dbError.Some? ==> error == Some(SaveErrorMessage(dbError.value))
                                      && success == old(success) && redirect == old(redirect))
                && (dbError.None? ==> error.None? && success
                                      && redirect == Some("/user/" + username))
    {
      if user.None? {
        return;
      }
      var invalid := Validate(username, displayName);
      if invalid.Some? {
        error := Some(ValidationMessage(invalid.value));
        return;
      }
      SavedProfileWellFormed(username, displayName, bio, avatarUrl, bannerUrl);
      Save(SavedProfile(username, displayName, bio, avatarUrl, bannerUrl), dbError);
    }

    /** The part of `handleSubmit` after validation: the update with the
        normalised row `saved` and its outcome. */
    method Save(saved: ProfileUpdate, dbError: Option<DbError>)
      requires Valid() && WellFormedUpdate(saved)
      modifies this`saving, this`error, this`success, this`updates, this`redirect
      ensures Valid() && !saving
      ensures updates == old(updates) + [saved]
      ensures dbError.Some? ==> error == Some(SaveErrorMessage(dbError.value))
                                && success == old(success) && redirect == old(redirect)
      ensures dbError.None? ==> error.None? && success && redirect == Some("/user/" + username)
    {
      saving := true;
      error := None;
      AppendWellFormed(updates, saved);
      updates := updates + [saved];
      if dbError.Some? {
        error := Some(SaveErrorMessage(dbError.value));
      } else {
        success := true;
        redirect := Some("/user/" + username);
      }
      saving := false;
    }

    /** `uploadImage`: writes the file under the user's folder and returns
        its public URL; `uploadFailed` and `publicUrl` are the storage
        service's answers. Without a user nothing is written. */
    method UploadImage(kind: ImageKind, file: ImageFile, timestamp: nat,
                       uploadFailed: bool, publicUrl: string) returns (url: Option<string>)
      modifies this`stored
      ensures user.None? ==> url.None? && stored == old(stored)
      ensures user.Some? && uploadFailed ==> url.None? && stored == old(stored)
      ensures user.Some? && !uploadFailed ==>
                url == Some(publicUrl)
                && stored == old(stored) + [old(StoragePath(user.value, kind, file.name, timestamp))]
    {
      if user.None? {
        return None;
      }
      var path := StoragePath(user.value, kind, file.name, timestamp);
      if uploadFailed {
        return None;
      }
      stored := stored + [path];
      url := Some(publicUrl);
    }

    /** `handleAvatarUpload` (kind `Avatar`) and `handleBannerUpload` (kind `Banner`). */
    method HandleImageUpload(kind: ImageKind, file: Option<ImageFile>, timestamp: nat,
                             uploadFailed: bool, publicUrl: string)
      modifies this`error, this`avatarUrl, this`bannerUrl, this`uploadingAvatar,
               this`uploadingBanner, this`stored
      ensures file.None? ==> error == old(error) && stored == old(stored)
                             && avatarUrl == old(avatarUrl) && bannerUrl == old(bannerUrl)
                             && uploadingAvatar == old(uploadingAvatar)
                             && uploadingBanner == old(uploadingBanner)
      ensures file.Some? && ImageCheck(kind, file.value).Some? ==>
                error == ImageCheck(kind, file.value) && stored == old(stored)
                && avatarUrl == old(avatarUrl) && bannerUrl == old(bannerUrl)
                && uploadingAvatar == old(uploadingAvatar) && uploadingBanner == old(uploadingBanner)
      ensures file.Some? && ImageCheck(kind, file.value).None? ==>
                var ok := user.Some? && !uploadFailed;
                && (kind == Avatar ==> !uploadingAvatar && uploadingBanner == old(uploadingBanner)
                                       && bannerUrl == old(bannerUrl)
                                       && avatarUrl == (if ok then Some(publicUrl) else old(avatarUrl)))
                && (kind == Banner ==> !uploadingBanner && uploadingAvatar == old(uploadingAvatar)
                                       && avatarUrl == old(avatarUrl)
                                       && bannerUrl == (if ok then Some(publicUrl) else old(bannerUrl)))
                && error == (if ok then None else Some(UploadFailedMessage(kind)))
                && (ok ==> stored == old(stored) + [old(StoragePath(user.value, kind, file.value.name, timestamp))])
                && (!ok ==> stored == old(stored))
    {
      if file.None? {
        return;
      }
      var rejected := ImageCheck(kind, file.value);
      if rejected.Some? {
        error := rejected;
        return;
      }
      UploadChecked(kind, file.value, timestamp, uploadFailed, publicUrl);
    }

    /** The part of the image handlers after the checks: the spinner, the
        upload and the URL it returns, or the failure message. */
    method UploadChecked(kind: ImageKind, file: ImageFile, timestamp: nat, uploadFailed: bool, publicUrl: string)
      modifies this`error, this`avatarUrl, this`bannerUrl, this`uploadingAvatar,
               this`uploadingBanner, this`stored
      ensures var ok := user.Some? && !uploadFailed;
              && (kind == Avatar ==> !uploadingAvatar && uploadingBanner == old(uploadingBanner)
                                     && bannerUrl == old(bannerUrl)
                                     && avatarUrl == (if ok then Some(publicUrl) else old(avatarUrl)))
              && (kind == Banner ==> !uploadingBanner && uploadingAvatar == old(uploadingAvatar)
                                     && avatarUrl == old(avatarUrl)
                                     && bannerUrl == (if ok then Some(publicUrl) else old(bannerUrl)))
              && error == (if ok then None else Some(UploadFailedMessage(kind)))
              && (ok ==> stored == old(stored) + [old(StoragePath(user.value, kind, file.name, timestamp))])
              && (!ok ==> stored == old(stored))
    {
      if kind == Avatar {
        uploadingAvatar := true;
        error := None;
        var url := UploadImage(kind, file, timestamp, uploadFailed, publicUrl);
        if url.Some? {
          avatarUrl := url;
        } else {
          error := Some(UploadFailedMessage(kind));
        }
        uploadingAvatar := false;
      } else {
        uploadingBanner := true;
        error := None;
        var url := UploadImage(kind, file, timestamp, uploadFailed, publicUrl);
        if url.Some? {
          bannerUrl := url;
        } else {
          error := Some(UploadFailedMessage(kind));
        }
        uploadingBanner := false;
      }
    }
  }
}
