/**
 * CapsuleController: each handler checks the caller's login first, then
 * turns the outcome of its service calls into one HTTP status and body.
 * The service calls are given as their outcome; every exception is caught
 * inside the handler, so each handler is a total function.
 */
module Controller {
  import opened Wrappers
  import opened Outcomes

  /** A response body: a text message, a JSON payload, or nothing at all. */
  datatype Body<+T> = Message(text: string) | Payload(value: T) | Empty

  datatype Response<+T> = Response(status: int, body: Body<T>)

  const Ok: int := 200
  const Created: int := 201
  const NoContent: int := 204
  const Unauthorized: int := 401
  const Forbidden: int := 403
  const NotFound: int := 404
  const InternalServerError: int := 500

  const LoginRequiredMessage: string := "로그인 상태를 확인해주세요."
  const SavedMessage: string := "타임캡슐이 성공적으로 저장되었습니다."
  const SaveFailedPrefix: string := "타임캠슐 저장 중 오류가 발생했습니다: "
  const ListFailedMessage: string := "타임캠슐 조회 중 오류가 발생했습니다."
  const DeleteFailedMessage: string := "타임캡슐 삭제 중 오류가 발생했습니다."
  const DetailFailedMessage: string := "타임캡슐 조회 중 오류가 발생했습니다."

  /** `kakaoId == null || kakaoId.isEmpty()` */
  predicate MissingKakaoId(kakaoId: Option<string>) {
    kakaoId.None? || kakaoId.value == ""
  }

  /** A possibly null message as Java string concatenation renders it. */
  function Concatenated(message: Option<string>): string {
    if message.Some? then message.value else "null"
  }

  /** `body(e.getMessage())`: a null message gives an empty body. */
  function MessageBody<T>(message: Option<string>): (b: Body<T>)
    ensures b.Empty? <==> message.None?
    ensures message.Some? ==> b == Message(message.value)
  {
    if message.Some? then Message(message.value) else Empty
  }

  /**
   * POST /capsule/create. `saved` is how the member lookup, the parsing of the
   * form fields and capsuleService.saveCapsule ended.
   */
  function SaveCapsule(kakaoId: Option<string>, saved: Outcome<()>): (r: Response<()>)
    ensures r.status in {Unauthorized, Created, InternalServerError}
    ensures r.status == Unauthorized <==> MissingKakaoId(kakaoId)
    ensures r.status == Created <==> !MissingKakaoId(kakaoId) && saved.Returned?
    ensures r.status == InternalServerError <==> !MissingKakaoId(kakaoId) && saved.Threw?
    ensures r.status == Unauthorized ==> r.body == Message(LoginRequiredMessage)
    ensures r.status == Created ==> r.body == Message(SavedMessage)
    ensures r.status == InternalServerError ==>
      r.body == Message(SaveFailedPrefix + Concatenated(saved.exception.message))
  {
    if MissingKakaoId(kakaoId) then
      Response(Unauthorized, Message(LoginRequiredMessage))
    else
      match saved
      case Returned(_) => Response(Created, Message(SavedMessage))
      case Threw(e) => Response(InternalServerError, Message(SaveFailedPrefix + Concatenated(e.message)))
  }

  /**
   * GET /capsule/list. `listed` is how the member-id lookup and
   * capsuleService.findMyCapsule ended.
   */
  function FindMyCapsule<T>(kakaoId: Option<string>, listed: Outcome<seq<T>>): (r: Response<seq<T>>)
    ensures r.status in {Unauthorized, Ok, InternalServerError}
    ensures r.status == Unauthorized <==> MissingKakaoId(kakaoId)
    ensures r.status == Ok <==> !MissingKakaoId(kakaoId) && listed.Returned?
    ensures r.status == InternalServerError <==> !MissingKakaoId(kakaoId) && listed.Threw?
    ensures r.status == Unauthorized ==> r.body == Message(LoginRequiredMessage)
    ensures r.status == Ok ==> r.body == Payload(listed.value)
    ensures r.status == InternalServerError ==> r.body == Message(ListFailedMessage)
  {
    if MissingKakaoId(kakaoId) then
      Response(Unauthorized, Message(LoginRequiredMessage))
    else
      match listed
      case Returned(capsules) => Response(Ok, Payload(capsules))
      case Threw(_) => Response(InternalServerError, Message(ListFailedMessage))
  }

  /**
   * DELETE /capsule/{id}. `deleted` is how the member lookup and
   * capsuleService.deleteCapsule ended. IllegalArgumentException is caught
   * first; a SecurityException falls to the catch-all.
   */
  function DeleteCapsule(kakaoId: Option<string>, deleted: Outcome<()>): (r: Response<()>)
    ensures r.status in {Unauthorized, NoContent, NotFound, InternalServerError}
    ensures r.status == Unauthorized <==> MissingKakaoId(kakaoId)
    ensures r.status == NoContent <==> !MissingKakaoId(kakaoId) && deleted.Returned?
    ensures r.status == NotFound <==>
      !MissingKakaoId(kakaoId) && deleted.Threw? && deleted.exception.IllegalArgument?
    ensures r.status == InternalServerError <==>
      !MissingKakaoId(kakaoId) && deleted.Threw? && !deleted.exception.IllegalArgument?
    ensures r.status == Unauthorized ==> r.body == Message(LoginRequiredMessage)
    ensures r.status == NoContent ==> r.body == Empty
    ensures r.status == NotFound ==> r.body == MessageBody(deleted.exception.message)
    ensures r.status == InternalServerError ==> r.body == Message(DeleteFailedMessage)
  {
    if MissingKakaoId(kakaoId) then
      Response(Unauthorized, Message(LoginRequiredMessage))
    else
      match deleted
      case Returned(_) => Response(NoContent, Empty)
      case Threw(IllegalArgument(message)) => Response(NotFound, MessageBody(message))
      case Threw(_) => Response(InternalServerError, Message(DeleteFailedMessage))
  }

  /**
   * GET /capsule/{id}. `isLogin` is the session login check and `detail` how
   * loginUtil.getMember and capsuleService.findCapsuleById ended.
   * SecurityException is caught first, then IllegalArgumentException, then
   * everything else.
   */
  function GetCapsuleDetail<T>(isLogin: bool, detail: Outcome<T>): (r: Response<T>)
    ensures r.status in {Unauthorized, Ok, Forbidden, NotFound, InternalServerError}
    ensures r.status == Unauthorized <==> !isLogin
    ensures r.status == Ok <==> isLogin && detail.Returned?
    ensures r.status == Forbidden <==> isLogin && detail.Threw? && detail.exception.Security?
    ensures r.status == NotFound <==> isLogin && detail.Threw? && detail.exception.IllegalArgument?
    ensures r.status == InternalServerError <==> isLogin && detail.Threw? && detail.exception.Other?
    ensures r.status == Unauthorized ==> r.body == Message(LoginRequiredMessage)
    ensures r.status == Ok ==> r.body == Payload(detail.value)
    ensures r.status in {Forbidden, NotFound} ==> r.body == MessageBody(detail.exception.message)
    ensures r.status == InternalServerError ==> r.body == Message(DetailFailedMessage)
  {
    if !isLogin then
      Response(Unauthorized, Message(LoginRequiredMessage))
    else
      match detail
      case Returned(d) => Response(Ok, Payload(d))
      case Threw(Security(message)) => Response(Forbidden, MessageBody(message))
      case Threw(IllegalArgument(message)) => Response(NotFound, MessageBody(message))
      case Threw(Other(_)) => Response(InternalServerError, Message(DetailFailedMessage))
  }

  /** The login check comes before any service call: without a login the outcome cannot change the response. */
  lemma LoginCheckedFirst<T>(kakaoId: Option<string>, isLogin: bool,
                             u1: Outcome<()>, u2: Outcome<()>, l1: Outcome<seq<T>>, l2: Outcome<seq<T>>,
                             d1: Outcome<T>, d2: Outcome<T>)
    ensures MissingKakaoId(kakaoId) ==>
      && SaveCapsule(kakaoId, u1) == SaveCapsule(kakaoId, u2)
      && FindMyCapsule(kakaoId, l1) == FindMyCapsule(kakaoId, l2)
      && DeleteCapsule(kakaoId, u1) == DeleteCapsule(kakaoId, u2)
    ensures !isLogin ==> GetCapsuleDetail(isLogin, d1) == GetCapsuleDetail(isLogin, d2)
  {
  }

  /**
   * Delete and detail map a failure to the same status, except that delete has
   * no SecurityException clause: a forbidden delete answers 500, not 403.
   */
  lemma DeleteAndDetailFailures(kakaoId: Option<string>, e: Exception)
    requires !MissingKakaoId(kakaoId)
    ensures e.Security? ==>
      DeleteCapsule(kakaoId, Threw(e)).status == InternalServerError &&
      GetCapsuleDetail<()>(true, Threw(e)).status == Forbidden
    ensures !e.Security? ==>
      DeleteCapsule(kakaoId, Threw(e)).status == GetCapsuleDetail<()>(true, Threw(e)).status
  {
  }
}
