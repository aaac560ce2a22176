/** The session-derived avatar: the avatar URL is read from the client's
    profile map, which the authentication cookie filled in. */
module Avatar {
  import opened Chat

  /** The sentinel error ErrNoAvatarURL; `Error()` is the text it was
      created with by errors.New. */
  datatype AvatarError = ErrNoAvatarURL {
    function Error(): string
    {
      "chat: Unable to get an avatar URL"
    }
  }

  /** The profile key that holds the avatar URL. */
  const AVATAR_KEY := "avatar_url"

  /** The Go pair `(string, error)`; `err == None` is a nil error. */
  datatype UrlResult = UrlResult(url: string, err: Option<AvatarError>)

  /** AuthAvatar.GetAvatarURL. */
  function GetAvatarURL(c: Client): (r: UrlResult)
    ensures r.err == None <==> AVATAR_KEY in c.userData && c.userData[AVATAR_KEY].Str?
    ensures r.err != None ==> r == UrlResult("", Some(ErrNoAvatarURL))
    ensures r.err == None ==> r.url == c.userData[AVATAR_KEY].s
  {
    if AVATAR_KEY !in c.userData then
      UrlResult("", Some(ErrNoAvatarURL))
    else
      match c.userData[AVATAR_KEY]
      case Str(s) => UrlResult(s, None)
      case Other => UrlResult("", Some(ErrNoAvatarURL))
  }

  /** No "avatar_url" attribute: the no-avatar error and an empty URL. */
  lemma MissingKey(c: Client)
    requires AVATAR_KEY !in c.userData
    ensures GetAvatarURL(c) == UrlResult("", Some(ErrNoAvatarURL))
  {
  }

  /** A freshly allocated client (nil profile) has no avatar. */
  lemma ZeroClientHasNoAvatar()
    ensures GetAvatarURL(ZERO_CLIENT) == UrlResult("", Some(ErrNoAvatarURL))
  {
  }

  /** An "avatar_url" attribute that is not a string: the no-avatar error. */
  lemma NotAString(c: Client)
    requires AVATAR_KEY in c.userData && c.userData[AVATAR_KEY] == Other
    ensures GetAvatarURL(c) == UrlResult("", Some(ErrNoAvatarURL))
  {
  }

  /** A string attribute is returned unchanged, with a nil error. */
  lemma StringReturned(c: Client, s: string)
    requires AVATAR_KEY in c.userData && c.userData[AVATAR_KEY] == Str(s)
    ensures GetAvatarURL(c) == UrlResult(s, None)
  {
  }

  /** The outcomes exclude each other: an error comes with an empty URL, and
      a non-empty URL comes with a nil error. */
  lemma ErrorExcludesUrl(c: Client)
    ensures GetAvatarURL(c).err != None ==> GetAvatarURL(c).url == ""
    ensures GetAvatarURL(c).url != "" ==> GetAvatarURL(c).err == None
  {
  }

  /** Only the "avatar_url" entry matters: the rest of the profile, the queue
      and the closed flag do not change the result. */
  lemma OnlyAvatarEntryMatters(c1: Client, c2: Client)
    requires AVATAR_KEY in c1.userData <==> AVATAR_KEY in c2.userData
    requires AVATAR_KEY in c1.userData ==> c1.userData[AVATAR_KEY] == c2.userData[AVATAR_KEY]
    ensures GetAvatarURL(c1) == GetAvatarURL(c2)
  {
  }

  /** The sequence of lookups in TestAuthAvatar: first on a zero client, then
      after its profile was set to {"avatar_url": testURL}. */
  lemma AuthAvatarScenario()
    ensures GetAvatarURL(ZERO_CLIENT).err == Some(ErrNoAvatarURL)
    ensures var c := ZERO_CLIENT.(userData := map[AVATAR_KEY := Str("http://url-to-gravatar/")]);
            GetAvatarURL(c) == UrlResult("http://url-to-gravatar/", None)
  {
  }
}
