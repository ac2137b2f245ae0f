// The error codes the services raise. Each constructor stands for one
// `ApiException` code string; `Code` gives that string back.
module Errors {

  datatype ErrorCode =
    | UserNotFound
    | FilingNotFound
    | FilingExists
    | AccessDenied
    | OriginalNotSubmitted
    | FilingNotEditable
    | ItemNotFound
    | ClaimNotFound
    | CannotDeleteSubmitted
    | InvalidStatus
    | IncompleteFiling
    | NoActiveRules
    | NoCalculation
    | RuleNotFound
    | RuleVersionNotFound
    | RuleNotEditable
    | MissingBrackets
    | AlreadyDeprecated
    | BracketNotFound
    | CreditRuleNotFound
    | DeductionRuleNotFound
    | AlreadySubmitted
    | CalculationFailed
    | NotSubmitted
    | SubmissionNotFound
    /** Not an `ApiException`: an unexpected exception (a `NullPointerException`), which the generic handler answers with INTERNAL_ERROR. */
    | InternalError
  {
    function Code(): string
    {
      match this
      case UserNotFound => "USER_NOT_FOUND"
      case FilingNotFound => "FILING_NOT_FOUND"
      case FilingExists => "FILING_EXISTS"
      case AccessDenied => "ACCESS_DENIED"
      case OriginalNotSubmitted => "ORIGINAL_NOT_SUBMITTED"
      case FilingNotEditable => "FILING_NOT_EDITABLE"
      case ItemNotFound => "ITEM_NOT_FOUND"
      case ClaimNotFound => "CLAIM_NOT_FOUND"
      case CannotDeleteSubmitted => "CANNOT_DELETE_SUBMITTED"
      case InvalidStatus => "INVALID_STATUS"
      case IncompleteFiling => "INCOMPLETE_FILING"
      case NoActiveRules => "NO_ACTIVE_RULES"
      case NoCalculation => "NO_CALCULATION"
      case RuleNotFound => "RULE_NOT_FOUND"
      case RuleVersionNotFound => "RULE_VERSION_NOT_FOUND"
      case RuleNotEditable => "RULE_NOT_EDITABLE"
      case MissingBrackets => "MISSING_BRACKETS"
      case AlreadyDeprecated => "ALREADY_DEPRECATED"
      case BracketNotFound => "BRACKET_NOT_FOUND"
      case CreditRuleNotFound => "CREDIT_RULE_NOT_FOUND"
      case DeductionRuleNotFound => "DEDUCTION_RULE_NOT_FOUND"
      case AlreadySubmitted => "ALREADY_SUBMITTED"
      case CalculationFailed => "CALCULATION_FAILED"
      case NotSubmitted => "NOT_SUBMITTED"
      case SubmissionNotFound => "SUBMISSION_NOT_FOUND"
      case InternalError => "INTERNAL_ERROR"
    }
  }
}
