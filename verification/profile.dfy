/** The profile page's role colour (src/client/src/pages/Profile.tsx, `getRoleColor`). */
module Profile {
  import opened Common
  import opened Users
  import Session

  /** The colour of a known role. */
  function KnownRoleTone(r: Role): Tone {
    match r
    case ProducerCeo => Red
    case LineProducer => Yellow
    case UnitManager => Green
    case VfxSupervisor => Blue
  }

  /** `getRoleColor`: the four known role strings have their own colours, any other string is gray. */
  function RoleTone(role: string): (t: Tone)
    ensures ParseRole(role).Some? ==> t == KnownRoleTone(ParseRole(role).value)
    ensures ParseRole(role).None? ==> t == Gray
  {
    if role == "Producer/CEO" then Red
    else if role == "Line Producer" then Yellow
    else if role == "1st AD/Unit Manager" then Green
    else if role == "VFX Supervisor/Director" then Blue
    else Gray
  }

  /** Different known roles get different colours, none of them gray. */
  lemma KnownTonesDistinct(r: Role, s: Role)
    ensures KnownRoleTone(r) != Gray
    ensures r != s ==> KnownRoleTone(r) != KnownRoleTone(s)
  {
  }

  /** A role is coloured exactly when the dashboard switch knows it: gray roles are the ones sent back to `/login`. */
  lemma ColouredIffDispatched(role: string)
    ensures RoleTone(role) != Gray <==> !Session.Dashboard(role).Redirect?
  {
  }

  /** The colour of each role name, as its string. */
  lemma ToneOfRoleName(r: Role)
    ensures RoleTone(RoleName(r)) == KnownRoleTone(r)
  {
    RoleNameRoundTrip(r, RoleName(r));
  }
}
