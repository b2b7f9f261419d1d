/** The footer: the newsletter form (a blank-address check, a confirmation that clears itself
    after three seconds), the client-only render guard, and the layout of the ten decorative
    particles. */
module Footer {
  import opened JsValues

  const ConfirmationMillis: nat := 3000

  class Newsletter {
    var email: string
    var isSubscribed: bool
    var isClient: bool
    /** The reset timeouts scheduled by submissions; none is ever cleared. */
    var pendingResets: nat

    constructor ()
      ensures email == "" && !isSubscribed && !isClient && pendingResets == 0
    {
      email := "";
      isSubscribed := false;
      isClient := false;
      pendingResets := 0;
    }

    /** The mount effect marks the client side; until then only a placeholder is rendered. */
    method ClientMount()
      modifies this`isClient
      ensures isClient
    {
      isClient := true;
    }

    function RendersFooter(): (r: bool)
      reads this
      ensures r <==> isClient
    {
      isClient
    }

    method EmailChanged(value: string)
      modifies this`email
      ensures email == value
    {
      email := value;
    }

    /** `handleNewsletterSubmit`: a blank or white-space-only address changes nothing; any
        other text subscribes, clears the field and schedules the reset. The handler itself does
        not check the format; on the page the `type="email"` input stops a malformed address
        before the handler runs. */
    method Submit()
      modifies this`isSubscribed, this`email, this`pendingResets
      ensures AllWhitespace(old(email)) ==> unchanged(this)
      ensures !AllWhitespace(old(email)) ==>
                isSubscribed && email == "" && pendingResets == old(pendingResets) + 1
    {
      TrimEmptyIffBlank(email);
      if Trim(email) != [] {
        isSubscribed := true;
        email := "";
        pendingResets := pendingResets + 1;
      }
    }

    /** A reset timeout fires after 3000 ms. */
    method ResetFires()
      requires pendingResets > 0
      modifies this`isSubscribed, this`pendingResets
      ensures !isSubscribed && pendingResets == old(pendingResets) - 1
    {
      isSubscribed := false;
      pendingResets := pendingResets - 1;
    }
  }

  // ---------------------------------------------------------------------------
  // Decorative particles

  const ParticleCount: nat := 10

  datatype Tint = Pastel | Lavender | Sky

  /** The left and top offsets (in percent) and the tint of particle `i`. */
  datatype ParticleStyle = ParticleStyle(left: nat, top: nat, tint: Tint)

  function ParticleAt(i: nat): (s: ParticleStyle)
    requires i < ParticleCount
    ensures 20 <= s.left <= 92 && 30 <= s.top <= 75
    ensures s.tint == Pastel <==> i % 3 == 0
    ensures s.tint == Lavender <==> i % 3 == 1
  {
    ParticleStyle(20 + i * 8, 30 + i * 5, if i % 3 == 0 then Pastel else if i % 3 == 1 then Lavender else Sky)
  }

  /** The particles run diagonally down and to the right, so no two share a position, and
      neighbours never share a tint. */
  lemma ParticlesSpreadOut(i: nat, j: nat)
    requires i < j < ParticleCount
    ensures ParticleAt(i).left < ParticleAt(j).left && ParticleAt(i).top < ParticleAt(j).top
    ensures j == i + 1 ==> ParticleAt(i).tint != ParticleAt(j).tint
  {
  }
}
