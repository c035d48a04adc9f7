/** Fixed values of the service's configuration module. */
module Constants {
  /** The only role allowed to reset its own password. */
  const USER_PLATFORM: int := 1

  /** Lifetime of a password-reset token. */
  const JWT_EXPIRES_IN_RESET: string := "15m"

  /** Template and action sent to the notification service for a reset e-mail. */
  const TEMPLATE_RESET: string := "password-reset"
  const ACTION_RESET: string := "recuperar"

  /** Path, under the notification service's base URL, that sends an e-mail. */
  const EMAIL_SEND_RESET: string := "/email/send-test"
}
